/**
  The interests gallery modal of js/main.js: a static map of galleries, a
  cursor (`currentGallery`, `currentIndex`) kept in the listener's closure,
  and the modal, image, caption and prev/next button state that showImage,
  openModal and closeModal change.
 */
module Gallery {

  datatype Entry = Entry(src: string, caption: string)

  /** The `galleries` map the script defines. */
  const SITE_GALLERIES: map<string, seq<Entry>> := map[
    "foodie" := [Entry("images/foodie-1.jpg", "美味的火锅 (Spicy Hotpot)"),
                 Entry("images/foodie-2.jpg", "兰州拉面 (Hand-pulled Noodles)")],
    "sports" := [Entry("images/sports-1.jpg", "一场精彩的网球比赛")],
    "photography" := [Entry("images/photography-1.jpg", "傍晚的校园")]
  ]

  const SHOWN := "block"
  const NOT_SHOWN := "none"
  const NO_SCROLL := "hidden"
  const SCROLL := "auto"

  /** Everything the modal's handlers read or write: the cursor, whether the
      modal has the `hidden` class, the body's overflow style, the image
      source, the caption text and the two buttons' display styles. */
  datatype Modal = Modal(
    gallery: seq<Entry>, index: int,
    hidden: bool, overflow: string, imageSrc: string, caption: string,
    prevDisplay: string, nextDisplay: string)

  /** The events the script listens to once it is wired. */
  datatype Event =
    | TriggerClick(galleryKey: string)   // a `[data-gallery]` element
    | CloseButtonClick
    | ModalClick(onBackdrop: bool)       // whether `e.target === modal`
    | PrevClick
    | NextClick
    | KeyDown(key: string)

  // ------------------------------------------------------------ transitions

  /** showImage(index): an index inside the gallery moves the cursor and the
      displayed entry; the buttons are set from the requested index alone. */
  function Shown(m: Modal, index: int): Modal {
    var moved := if 0 <= index < |m.gallery| then m.(imageSrc := m.gallery[index].src, caption := m.gallery[index].caption, index := index) else m;
    moved.(prevDisplay := if index > 0 then SHOWN else NOT_SHOWN,
           nextDisplay := if index < |m.gallery| - 1 then SHOWN else NOT_SHOWN)
  }

  /** openModal(key) */
  function Opened(galleries: map<string, seq<Entry>>, m: Modal, key: string): Modal {
    if key in galleries && |galleries[key]| > 0 then
      Shown(m.(gallery := galleries[key], hidden := false, overflow := NO_SCROLL), 0)
    else m
  }

  /** closeModal() */
  function Closed(m: Modal): Modal {
    m.(hidden := true, overflow := SCROLL, imageSrc := "")
  }

  /** The keydown listener: three independent tests, only while the modal is
      open; the arrows click the prev/next buttons. */
  function Pressed(m: Modal, key: string): Modal {
    if m.hidden then m
    else
      var afterEscape := if key == "Escape" then Closed(m) else m;
      var afterLeft := if key == "ArrowLeft" then Shown(afterEscape, afterEscape.index - 1) else afterEscape;
      if key == "ArrowRight" then Shown(afterLeft, afterLeft.index + 1) else afterLeft
  }

  function Step(galleries: map<string, seq<Entry>>, m: Modal, e: Event): Modal {
    match e
    case TriggerClick(key) => Opened(galleries, m, key)
    case CloseButtonClick => Closed(m)
    case ModalClick(onBackdrop) => if onBackdrop then Closed(m) else m
    case PrevClick => Shown(m, m.index - 1)
    case NextClick => Shown(m, m.index + 1)
    case KeyDown(key) => Pressed(m, key)
  }

  function Run(galleries: map<string, seq<Entry>>, m: Modal, events: seq<Event>): Modal
    decreases |events|
  {
    if events == [] then m else Run(galleries, Step(galleries, m, events[0]), events[1..])
  }

  // ------------------------------------------------------------ invariant

  /** The cursor is 0 before any gallery was opened and inside the active
      gallery afterwards. */
  ghost predicate CursorOk(m: Modal) {
    (m.gallery == [] && m.index == 0) || 0 <= m.index < |m.gallery|
  }

  /** The active gallery is one of the static galleries, or none yet. */
  ghost predicate FromGalleries(galleries: map<string, seq<Entry>>, m: Modal) {
    m.gallery == [] || m.gallery in galleries.Values
  }

  ghost predicate Inv(galleries: map<string, seq<Entry>>, m: Modal) {
    CursorOk(m) && FromGalleries(galleries, m)
  }

  lemma StepKeepsInv(galleries: map<string, seq<Entry>>, m: Modal, e: Event)
    requires Inv(galleries, m)
    ensures Inv(galleries, Step(galleries, m, e))
  {
    match e
    case TriggerClick(key) =>
      if key in galleries && |galleries[key]| > 0 {
        assert galleries[key] in galleries.Values;
      }
    case _ =>
  }

  /** After any sequence of events the cursor is still 0 or inside the
      active gallery, and that gallery is one of the static ones. */
  lemma {:induction false} RunKeepsInv(galleries: map<string, seq<Entry>>, m: Modal, events: seq<Event>)
    requires Inv(galleries, m)
    ensures Inv(galleries, Run(galleries, m, events))
    ensures CursorOk(Run(galleries, m, events))
    decreases |events|
  {
    if events != [] {
      StepKeepsInv(galleries, m, events[0]);
      RunKeepsInv(galleries, Step(galleries, m, events[0]), events[1..]);
    }
  }

  // ------------------------------------------------------------ properties

  /** openModal on a key with a non-empty gallery opens it at entry 0 and
      hides page scrolling; on any other key nothing changes. */
  lemma OpenedResets(galleries: map<string, seq<Entry>>, m: Modal, key: string)
    ensures key in galleries && |galleries[key]| > 0 ==>
      var r := Opened(galleries, m, key);
      && r.gallery == galleries[key] && r.index == 0 && !r.hidden && r.overflow == NO_SCROLL
      && r.imageSrc == galleries[key][0].src && r.caption == galleries[key][0].caption
      && r.prevDisplay == NOT_SHOWN && (r.nextDisplay == SHOWN <==> |galleries[key]| > 1)
    ensures !(key in galleries && |galleries[key]| > 0) ==> Opened(galleries, m, key) == m
  {
  }

  /** showImage moves cursor, image and caption exactly for indices inside
      the gallery; the gallery, visibility and scrolling never change. */
  lemma ShownMovesCursor(m: Modal, index: int)
    ensures var r := Shown(m, index);
      && r.gallery == m.gallery && r.hidden == m.hidden && r.overflow == m.overflow
      && (0 <= index < |m.gallery| ==> r.index == index && r.imageSrc == m.gallery[index].src && r.caption == m.gallery[index].caption)
      && (!(0 <= index < |m.gallery|) ==> r.index == m.index && r.imageSrc == m.imageSrc && r.caption == m.caption)
  {
  }

  /** The buttons follow the requested index, not the resulting cursor. */
  lemma ButtonsFollowRequest(m: Modal, index: int)
    ensures Shown(m, index).prevDisplay == SHOWN <==> index > 0
    ensures Shown(m, index).nextDisplay == SHOWN <==> index < |m.gallery| - 1
  {
  }

  /** prev at the first entry and next at the last change neither the
      cursor nor the displayed entry. */
  lemma BoundariesHold(galleries: map<string, seq<Entry>>, m: Modal)
    requires CursorOk(m)
    ensures m.index == 0 ==> var r := Step(galleries, m, PrevClick);
      r.index == 0 && r.imageSrc == m.imageSrc && r.caption == m.caption
    ensures m.index == |m.gallery| - 1 ==> var r := Step(galleries, m, NextClick);
      r.index == m.index && r.imageSrc == m.imageSrc && r.caption == m.caption
  {
  }

  /** With two or more entries, every prev/next leaves the buttons exactly
      as the cursor calls for: prev hidden only at 0, next only at the end. */
  lemma ButtonsMatchCursor(galleries: map<string, seq<Entry>>, m: Modal, e: Event)
    requires CursorOk(m) && |m.gallery| >= 2 && (e == PrevClick || e == NextClick)
    ensures var r := Step(galleries, m, e);
      (r.prevDisplay == SHOWN <==> r.index > 0) && (r.nextDisplay == SHOWN <==> r.index < |m.gallery| - 1)
  {
  }

  /** With a single entry, ArrowRight leaves the cursor at 0 yet shows the
      prev button (the request was index 1). */
  lemma SingleEntryArrowRight(m: Modal)
    requires !m.hidden && |m.gallery| == 1 && m.index == 0
    ensures var r := Pressed(m, "ArrowRight");
      r.index == 0 && r.prevDisplay == SHOWN && r.nextDisplay == NOT_SHOWN
  {
  }

  /** closeModal hides the modal, restores scrolling and clears the image,
      leaving the cursor, the active gallery and the caption as they were. */
  lemma ClosedKeepsCursor(m: Modal)
    ensures var r := Closed(m);
      && r.hidden && r.overflow == SCROLL && r.imageSrc == ""
      && r.gallery == m.gallery && r.index == m.index && r.caption == m.caption
      && r.prevDisplay == m.prevDisplay && r.nextDisplay == m.nextDisplay
  {
  }

  /** Keys act only while the modal is open: Escape closes, the arrows are
      prev and next, any other key does nothing. A click on the modal closes
      it only when the backdrop itself is the target. */
  lemma KeysAndBackdrop(galleries: map<string, seq<Entry>>, m: Modal, key: string)
    ensures m.hidden ==> Step(galleries, m, KeyDown(key)) == m
    ensures !m.hidden && key == "Escape" ==> Step(galleries, m, KeyDown(key)) == Closed(m)
    ensures !m.hidden && key == "ArrowLeft" ==> Step(galleries, m, KeyDown(key)) == Step(galleries, m, PrevClick)
    ensures !m.hidden && key == "ArrowRight" ==> Step(galleries, m, KeyDown(key)) == Step(galleries, m, NextClick)
    ensures key != "Escape" && key != "ArrowLeft" && key != "ArrowRight" ==> Step(galleries, m, KeyDown(key)) == m
    ensures Step(galleries, m, ModalClick(false)) == m && Step(galleries, m, ModalClick(true)) == Closed(m)
  {
  }

  /** Every static gallery is non-empty, and two of them hold one entry. */
  lemma SiteGalleriesShape()
    ensures forall key :: key in SITE_GALLERIES ==> |SITE_GALLERIES[key]| > 0
    ensures |SITE_GALLERIES["sports"]| == 1 && |SITE_GALLERIES["photography"]| == 1
  {
  }

  // ------------------------------------------------------------ the page

  /** The wired script: `wired` is false when the page has no modal or no
      trigger, in which case no listener is ever added. */
  class GalleryModal {
    const wired: bool
    const galleries: map<string, seq<Entry>>
    var currentGallery: seq<Entry>
    var currentIndex: int
    var hidden: bool
    var overflow: string
    var imageSrc: string
    var caption: string
    var prevDisplay: string
    var nextDisplay: string

    function View(): Modal
      reads this
    {
      Modal(currentGallery, currentIndex, hidden, overflow, imageSrc, caption, prevDisplay, nextDisplay)
    }

    ghost predicate Valid()
      reads this
    {
      Inv(galleries, View())
    }

    /** The script's start: the static map, an empty cursor, and the page's
        authored modal, image, caption and button state. */
    constructor (modalPresent: bool, triggerCount: nat, hidden: bool, overflow: string, imageSrc: string,
                 caption: string, prevDisplay: string, nextDisplay: string)
      ensures Valid()
      ensures wired == (modalPresent && triggerCount > 0) && galleries == SITE_GALLERIES
      ensures View() == Modal([], 0, hidden, overflow, imageSrc, caption, prevDisplay, nextDisplay)
    {
      wired := modalPresent && triggerCount > 0;
      galleries := SITE_GALLERIES;
      currentGallery, currentIndex := [], 0;
      this.hidden, this.overflow, this.imageSrc, this.caption := hidden, overflow, imageSrc, caption;
      this.prevDisplay, this.nextDisplay := prevDisplay, nextDisplay;
    }

    method ShowImage(index: int)
      modifies this
      ensures View() == Shown(old(View()), index)
    {
      if 0 <= index < |currentGallery| {
        imageSrc := currentGallery[index].src;
        caption := currentGallery[index].caption;
        currentIndex := index;
      }
      prevDisplay := if index > 0 then SHOWN else NOT_SHOWN;
      nextDisplay := if index < |currentGallery| - 1 then SHOWN else NOT_SHOWN;
    }

    method OpenModal(key: string)
      modifies this
      ensures View() == Opened(galleries, old(View()), key)
    {
      if key in galleries && |galleries[key]| > 0 {
        currentGallery := galleries[key];
        hidden := false;
        overflow := NO_SCROLL;
        ShowImage(0);
      }
    }

    method CloseModal()
      modifies this
      ensures View() == Closed(old(View()))
    {
      hidden := true;
      overflow := SCROLL;
      imageSrc := "";
    }

    /** Dispatches one event to the listener the script registered for it. */
    method Handle(e: Event)
      requires Valid()
      modifies this
      ensures Valid()
      ensures View() == if wired then Step(galleries, old(View()), e) else old(View())
    {
      if !wired {
        return;
      }
      match e
      case TriggerClick(key) => OpenModal(key);
      case CloseButtonClick => CloseModal();
      case ModalClick(onBackdrop) =>
        if onBackdrop {
          CloseModal();
        }
      case PrevClick => ShowImage(currentIndex - 1);
      case NextClick => ShowImage(currentIndex + 1);
      case KeyDown(key) =>
        if !hidden {
          if key == "Escape" {
            CloseModal();
          }
          if key == "ArrowLeft" {
            ShowImage(currentIndex - 1);
          }
          if key == "ArrowRight" {
            ShowImage(currentIndex + 1);
          }
        }
      StepKeepsInv(galleries, old(View()), e);
    }
  }

  /** Opening the one-photo "sports" gallery and pressing ArrowRight: the
      cursor stays at 0 but the prev button is shown. */
  method SportsGalleryArrowRight() returns (cursor: int, prev: string, next: string)
    ensures cursor == 0 && prev == SHOWN && next == NOT_SHOWN
  {
    var modal := new GalleryModal(true, 1, true, "", "", "", NOT_SHOWN, NOT_SHOWN);
    modal.Handle(TriggerClick("sports"));
    modal.Handle(KeyDown("ArrowRight"));
    cursor, prev, next := modal.currentIndex, modal.prevDisplay, modal.nextDisplay;
  }
}
