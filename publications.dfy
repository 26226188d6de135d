/**
  loadPublications of js/app.js: the split of the paper list on
  `selected === true`, the cards renderCard builds, the initial render and
  the Show All / Show Less button whose `data-state` attribute drives a
  two-way toggle.
 */
module Publications {
  import opened JsValues
  import opened Dom

  datatype Paper = Paper(
    title: string, authors: string, journal: string, year: string,
    description: Option<string>, github: Option<string>, status: Option<string>, image: Option<string>,
    selected: JsValue)

  /** A card as renderCard builds it: the paper, which optional parts it
      carries (image box, status badge, description, Code button) and
      whether it has the fade-in class. */
  datatype Card = Card(paper: Paper, image: bool, statusBadge: bool, description: bool, codeButton: bool, animated: bool)

  /** A child of the publication list: a card, or the load-failure message. */
  datatype Node = PaperCard(card: Card) | LoadFailed

  datatype Label = AuthoredLabel(text: string) | NoMorePapers | ShowLess | ShowAll
  datatype ButtonStyle = AuthoredStyle | Muted | Active

  /** The click handler the loader installs, with the two lists it captures. */
  datatype Handler = Handler(primary: seq<Paper>, other: seq<Paper>)

  /** The show-more button: its `data-state` attribute (`None` when unset),
      its label, its opacity/cursor style and its `onclick`. */
  datatype Button = Button(state: Option<string>, legend: Label, style: ButtonStyle, onclick: Option<Handler>)

  const COLLAPSED := "collapsed"
  const EXPANDED := "expanded"

  // ------------------------------------------------------------ partition

  predicate IsSelected(p: Paper) {
    p.selected == Bool(true)
  }

  predicate NotSelected(p: Paper) {
    p.selected != Bool(true)
  }

  /** Array.prototype.filter. */
  function Filter<T>(s: seq<T>, keep: T -> bool): (r: seq<T>)
    ensures |r| <= |s|
    ensures forall x :: x in r ==> x in s && keep(x)
  {
    if s == [] then [] else (if keep(s[0]) then [s[0]] else []) + Filter(s[1..], keep)
  }

  function Primary(papers: seq<Paper>): seq<Paper> {
    Filter(papers, IsSelected)
  }

  function Other(papers: seq<Paper>): seq<Paper> {
    Filter(papers, NotSelected)
  }

  lemma {:induction false} FilterMembers<T>(s: seq<T>, keep: T -> bool, x: T)
    ensures x in Filter(s, keep) <==> x in s && keep(x)
  {
    if s != [] {
      FilterMembers(s[1..], keep, x);
      assert x in s <==> x == s[0] || x in s[1..];
    }
  }

  /** Filtering commutes with concatenation: it keeps source order. */
  lemma {:induction false} FilterConcat<T>(a: seq<T>, b: seq<T>, keep: T -> bool)
    ensures Filter(a + b, keep) == Filter(a, keep) + Filter(b, keep)
  {
    if a == [] {
      assert a + b == b;
    } else {
      assert (a + b)[0] == a[0];
      assert (a + b)[1..] == a[1..] + b;
      FilterConcat(a[1..], b, keep);
    }
  }

  lemma {:induction false} PartitionMultiset(papers: seq<Paper>)
    ensures multiset(Primary(papers)) + multiset(Other(papers)) == multiset(papers)
  {
    if papers != [] {
      PartitionMultiset(papers[1..]);
      assert papers == [papers[0]] + papers[1..];
    }
  }

  /** The primary papers are exactly those whose `selected` is the boolean
      true; the others are exactly the rest (false, missing, null, or any
      other value, truthy or not); every paper lands in exactly one list. */
  lemma Partition(papers: seq<Paper>)
    ensures forall p :: p in Primary(papers) <==> p in papers && p.selected == Bool(true)
    ensures forall p :: p in Other(papers) <==> p in papers && p.selected != Bool(true)
    ensures multiset(Primary(papers)) + multiset(Other(papers)) == multiset(papers)
    ensures |Primary(papers)| + |Other(papers)| == |papers|
  {
    forall p
      ensures p in Primary(papers) <==> p in papers && p.selected == Bool(true)
      ensures p in Other(papers) <==> p in papers && p.selected != Bool(true)
    {
      FilterMembers(papers, IsSelected, p);
      FilterMembers(papers, NotSelected, p);
    }
    PartitionMultiset(papers);
    assert |multiset(Primary(papers))| + |multiset(Other(papers))| == |multiset(papers)|;
  }

  /** Both lists keep source order: splitting the input splits each list. */
  lemma PartitionKeepsOrder(a: seq<Paper>, b: seq<Paper>)
    ensures Primary(a + b) == Primary(a) + Primary(b)
    ensures Other(a + b) == Other(a) + Other(b)
  {
    FilterConcat(a, b, IsSelected);
    FilterConcat(a, b, NotSelected);
  }

  // ------------------------------------------------------------ rendering

  function RenderCard(p: Paper, animate: bool): Card {
    Card(p, Present(p.image), Present(p.status), Present(p.description), Present(p.github), animate)
  }

  /** `renderCard(p)` */
  function StaticCard(p: Paper): Node {
    PaperCard(RenderCard(p, false))
  }

  /** `renderCard(p, true)` */
  function AnimatedCard(p: Paper): Node {
    PaperCard(RenderCard(p, true))
  }

  function PlainCards(papers: seq<Paper>): seq<Node> {
    Rendered(papers, StaticCard)
  }

  function AnimatedCards(papers: seq<Paper>): seq<Node> {
    Rendered(papers, AnimatedCard)
  }

  /** The initial render shows exactly the selected papers' cards, in
      source order, none of them animated. */
  lemma InitialRender(papers: seq<Paper>)
    ensures |PlainCards(Primary(papers))| == |Primary(papers)|
    ensures forall k :: 0 <= k < |Primary(papers)| ==>
      PlainCards(Primary(papers))[k] == PaperCard(RenderCard(Primary(papers)[k], false))
    ensures forall n :: n in PlainCards(Primary(papers)) ==>
      n.PaperCard? && !n.card.animated && n.card.paper in papers && n.card.paper.selected == Bool(true)
  {
    var cards := PlainCards(Primary(papers));
    forall n | n in cards
      ensures n.PaperCard? && !n.card.animated && n.card.paper in papers && n.card.paper.selected == Bool(true)
    {
      var k :| 0 <= k < |cards| && cards[k] == n;
      assert Primary(papers)[k] in Primary(papers);
    }
  }

  // ------------------------------------------------------------ the toggle

  /** What a click acts on: the list's children, the button's `data-state`
      and its label. */
  datatype Toggle = Toggle(shown: seq<Node>, state: Option<string>, legend: Label)

  /** The `btn.onclick` handler. From `'collapsed'` it appends the other
      papers' animated cards after what is shown; from any other state,
      including an unset attribute, it re-renders the primary cards alone. */
  function Clicked(t: Toggle, primary: seq<Paper>, other: seq<Paper>): Toggle {
    if t.state == Some(COLLAPSED) then Toggle(t.shown + AnimatedCards(other), Some(EXPANDED), ShowLess)
    else Toggle(PlainCards(primary), Some(COLLAPSED), ShowAll)
  }

  function AfterClicks(t: Toggle, primary: seq<Paper>, other: seq<Paper>, n: nat): Toggle {
    if n == 0 then t else Clicked(AfterClicks(t, primary, other, n - 1), primary, other)
  }

  function CollapsedView(primary: seq<Paper>): Toggle {
    Toggle(PlainCards(primary), Some(COLLAPSED), ShowAll)
  }

  function ExpandedView(primary: seq<Paper>, other: seq<Paper>): Toggle {
    Toggle(PlainCards(primary) + AnimatedCards(other), Some(EXPANDED), ShowLess)
  }

  /** Starting from the initial render, every click lands in one of the two
      views, alternating: the first click expands when the authored state is
      `'collapsed'` and collapses otherwise. */
  lemma {:induction false} ClicksAlternate(t: Toggle, primary: seq<Paper>, other: seq<Paper>, n: nat)
    requires t.shown == PlainCards(primary) && n >= 1
    ensures AfterClicks(t, primary, other, n) ==
      if (n % 2 == 1) == (t.state == Some(COLLAPSED)) then ExpandedView(primary, other) else CollapsedView(primary)
  {
    if n > 1 {
      ClicksAlternate(t, primary, other, n - 1);
    }
  }

  /** Expanding keeps the primary cards already shown (they are not
      rendered again) and adds the other papers' cards, animated, after them. */
  lemma ExpandedCards(primary: seq<Paper>, other: seq<Paper>, k: nat)
    requires k < |primary| + |other|
    ensures |ExpandedView(primary, other).shown| == |primary| + |other|
    ensures k < |primary| ==> ExpandedView(primary, other).shown[k] == PaperCard(RenderCard(primary[k], false))
    ensures k >= |primary| ==> ExpandedView(primary, other).shown[k] == PaperCard(RenderCard(other[k - |primary|], true))
  {
  }

  /** Expand then collapse restores the initial list. */
  lemma ExpandThenCollapse(t: Toggle, primary: seq<Paper>, other: seq<Paper>)
    requires t.shown == PlainCards(primary) && t.state == Some(COLLAPSED)
    ensures AfterClicks(t, primary, other, 2).shown == t.shown
    ensures AfterClicks(t, primary, other, 2).state == Some(COLLAPSED)
  {
    ClicksAlternate(t, primary, other, 2);
  }

  /** Expand, collapse, expand is the same as one expand. */
  lemma ExpandCollapseExpand(t: Toggle, primary: seq<Paper>, other: seq<Paper>)
    requires t.shown == PlainCards(primary)
    ensures AfterClicks(t, primary, other, 3) == AfterClicks(t, primary, other, 1)
  {
    ClicksAlternate(t, primary, other, 3);
    ClicksAlternate(t, primary, other, 1);
  }

  // ------------------------------------------------------------ the section

  /** The publication list (null when the page has no `publication-list`)
      and the show-more button (absent when the page has no `show-more-btn`). */
  class PublicationSection {
    const container: Container?<Node>
    const buttonPresent: bool
    var button: Button

    /** A handler is installed only on a button that exists, and only when
        there are papers to reveal. */
    ghost predicate Valid()
      reads this
    {
      button.onclick.Some? ==> buttonPresent && button.onclick.value.other != []
    }

    constructor (container: Container?<Node>, buttonPresent: bool, state: Option<string>, legend: Label)
      ensures Valid()
      ensures this.container == container && this.buttonPresent == buttonPresent
      ensures button == Button(state, legend, AuthoredStyle, None)
    {
      this.container := container;
      this.buttonPresent := buttonPresent;
      button := Button(state, legend, AuthoredStyle, None);
    }

    function View(): Toggle
      reads this, container
      requires container != null
    {
      Toggle(container.children, button.state, button.legend)
    }

    /** loadPublications, given the outcome of fetching and parsing the JSON
        (`None` for any error the `catch` receives before rendering). */
    method Load(result: Option<seq<Paper>>)
      requires Valid()
      modifies this, container
      ensures Valid()
      ensures result.None? ==> button == old(button)
      ensures result.None? && container != null ==> container.children == [LoadFailed]
      ensures result.Some? && container != null ==> container.children == PlainCards(Primary(result.value))
      // with no list on the page, appending the first primary card throws and the catch has nothing to write to
      ensures result.Some? && container == null && Primary(result.value) != [] ==> button == old(button)
      ensures result.Some? && (container != null || Primary(result.value) == []) ==>
        button == (if !buttonPresent then old(button)
                   else if Other(result.value) == [] then old(button).(style := Muted, legend := NoMorePapers, onclick := None)
                   else old(button).(style := Active, onclick := Some(Handler(Primary(result.value), Other(result.value)))))
    {
      if result.None? {
        if container != null {
          container.children := [LoadFailed];
        }
        return;
      }
      var papers := result.value;
      if container != null {
        container.children := [];
      }
      var primaryPapers := Primary(papers);
      var otherPapers := Other(papers);
      if container == null {
        if primaryPapers != [] {
          return;
        }
      } else {
        AppendRendered(container, primaryPapers, StaticCard);
      }
      if !buttonPresent {
        return;
      }
      if |otherPapers| == 0 {
        button := button.(style := Muted, legend := NoMorePapers, onclick := None);
        return;
      }
      button := button.(style := Active, onclick := Some(Handler(primaryPapers, otherPapers)));
    }

    /** A click on the button: nothing without a handler (or when the
        handler throws for want of a list); otherwise one Clicked step. */
    method Click()
      requires Valid()
      modifies this, container
      ensures Valid()
      ensures button.onclick == old(button.onclick) && button.style == old(button.style)
      ensures old(button.onclick).None? || container == null ==> button == old(button)
      ensures old(button.onclick).None? && container != null ==> container.children == old(container.children)
      ensures old(button.onclick).Some? && container != null ==>
        View() == Clicked(old(View()), button.onclick.value.primary, button.onclick.value.other)
    {
      if button.onclick.None? || container == null {
        return;
      }
      var handler := button.onclick.value;
      if button.state == Some(COLLAPSED) {
        AppendRendered(container, handler.other, AnimatedCard);
        button := button.(legend := ShowLess, state := Some(EXPANDED));
      } else {
        container.children := [];
        AppendRendered(container, handler.primary, StaticCard);
        button := button.(legend := ShowAll, state := Some(COLLAPSED));
      }
    }
  }
}
