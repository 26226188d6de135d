/**
  The section loaders of js/app.js other than publications: profile,
  education, honors and interests. Each receives the outcome of its JSON
  fetch (`None` when fetchData caught an error and returned null) and the
  container element (null when the page lacks it).
 */
module Sections {
  import opened JsValues
  import opened Dom

  // ---------------------------------------------------------------- profile

  datatype Profile = Profile(
    name: string, title: string, university: string, motto: string,
    avatar: string, bio: string, avatarCaption: Option<string>)

  /** What the model keeps of a page element: its text or markup, its image
      source, and whether it carries the `hidden` class. */
  datatype Element = Element(content: string, src: string, hidden: bool)

  const TITLE_SUFFIX := " | Portfolio"

  /** The caption test `avatarCaption && avatarCaption.trim() !== ""`. */
  predicate CaptionShown(caption: Option<string>) {
    Present(caption) && Trim(caption.value) != ""
  }

  /** The caption is shown exactly when it is present and holds some
      non-whitespace character. */
  lemma CaptionShownIff(caption: Option<string>)
    ensures CaptionShown(caption) <==>
      caption.Some? && exists k :: 0 <= k < |caption.value| && !IsWhitespace(caption.value[k])
  {
    if caption.Some? {
      TrimEmptyIff(caption.value);
    }
  }

  /** The `setText` helper: sets an element's text when the page has it. */
  function WithText(element: Option<Element>, text: string): Option<Element> {
    if element.Some? then Some(element.value.(content := text)) else None
  }

  /** The document title and the elements loadProfile looks up by id;
      `None` is an id the page does not have. */
  class ProfilePage {
    var title: string
    var avatar: Option<Element>      // profile-avatar
    var nameMain: Option<Element>    // profile-name-main
    var role: Option<Element>        // profile-role
    var university: Option<Element>  // profile-uni
    var motto: Option<Element>       // profile-motto
    var footerName: Option<Element>  // footer-name
    var bio: Option<Element>         // profile-bio
    var caption: Option<Element>     // profile-avatar-caption

    constructor (title: string, avatar: Option<Element>, nameMain: Option<Element>, role: Option<Element>,
                 university: Option<Element>, motto: Option<Element>, footerName: Option<Element>,
                 bio: Option<Element>, caption: Option<Element>)
      ensures this.title == title && this.avatar == avatar && this.nameMain == nameMain
      ensures this.role == role && this.university == university && this.motto == motto
      ensures this.footerName == footerName && this.bio == bio && this.caption == caption
    {
      this.title, this.avatar, this.nameMain, this.role := title, avatar, nameMain, role;
      this.university, this.motto, this.footerName := university, motto, footerName;
      this.bio, this.caption := bio, caption;
    }

    /** loadProfile. No data changes nothing. Otherwise the title becomes
        `name | Portfolio`, each element the page has gets its field (the
        motto in double quotes, the bio as markup), and the caption shows
        the caption text or is hidden with its text left as it was. */
    method LoadProfile(data: Option<Profile>)
      modifies this
      ensures data.None? ==> unchanged(this)
      ensures data.Some? ==> title == data.value.name + TITLE_SUFFIX
      ensures data.Some? ==> avatar == if old(avatar).Some? then Some(old(avatar).value.(src := data.value.avatar)) else None
      ensures data.Some? ==>
        && nameMain == WithText(old(nameMain), data.value.name)
        && role == WithText(old(role), data.value.title)
        && university == WithText(old(university), data.value.university)
        && motto == WithText(old(motto), "\"" + data.value.motto + "\"")
        && footerName == WithText(old(footerName), data.value.name)
        && bio == WithText(old(bio), data.value.bio)
      ensures data.Some? && old(caption).Some? && CaptionShown(data.value.avatarCaption) ==>
        caption == Some(old(caption).value.(content := data.value.avatarCaption.value, hidden := false))
      ensures data.Some? && old(caption).Some? && !CaptionShown(data.value.avatarCaption) ==>
        caption == Some(old(caption).value.(hidden := true))
      ensures old(caption).None? ==> caption.None?
    {
      if data.None? {
        return;
      }
      var p := data.value;
      title := p.name + TITLE_SUFFIX;
      if avatar.Some? {
        avatar := Some(avatar.value.(src := p.avatar));
      }
      nameMain := WithText(nameMain, p.name);
      role := WithText(role, p.title);
      university := WithText(university, p.university);
      motto := WithText(motto, "\"" + p.motto + "\"");
      footerName := WithText(footerName, p.name);
      bio := WithText(bio, p.bio);
      ShowCaption(p.avatarCaption);
    }

    /** The caption step of loadProfile: show the caption text, or hide the
        element and leave its text. */
    method ShowCaption(text: Option<string>)
      modifies this`caption
      ensures old(caption).Some? && CaptionShown(text) ==>
        caption == Some(old(caption).value.(content := text.value, hidden := false))
      ensures old(caption).Some? && !CaptionShown(text) ==> caption == Some(old(caption).value.(hidden := true))
      ensures old(caption).None? ==> caption.None?
    {
      if caption.Some? {
        if CaptionShown(text) {
          caption := Some(caption.value.(content := text.value, hidden := false));
        } else {
          caption := Some(caption.value.(hidden := true));
        }
      }
    }
  }

  // ------------------------------------------------------- list sections

  datatype Education = Education(degree: string, year: string, school: string, description: string)
  datatype Honor = Honor(title: string, year: string, issuer: string)
  datatype Interest = Interest(name: string, icon: string, color: string, link: Option<string>)

  /** One rendered block of a list section. */
  datatype Block =
    | EducationEntry(degree: string, year: string, school: string, description: string)
    | HonorEntry(title: string, year: string, issuer: string)
    | Encouragement(quote: string)
    | InterestTile(href: string, icon: string, color: string, name: string)

  const ENCOURAGEMENT := "Great things take time. I am on the way to my first milestone."
  const NO_LINK := "#"

  function EducationBlock(e: Education): Block {
    EducationEntry(e.degree, e.year, e.school, e.description)
  }

  function HonorBlock(h: Honor): Block {
    HonorEntry(h.title, h.year, h.issuer)
  }

  /** `item.link || '#'` */
  function InterestHref(link: Option<string>): string {
    if Present(link) then link.value else NO_LINK
  }

  function InterestBlock(i: Interest): Block {
    InterestTile(InterestHref(i.link), i.icon, i.color, i.name)
  }

  /** An interest tile links to the interest's link when it is a non-empty
      string, and to `#` otherwise. */
  lemma InterestTileLink(items: seq<Interest>, k: nat)
    requires k < |items|
    ensures Rendered(items, InterestBlock)[k].href ==
      if items[k].link.Some? && items[k].link.value != "" then items[k].link.value else "#"
  {
  }

  /** loadEducation: with data and a container, the container is cleared and
      then holds one entry per record in order; otherwise nothing changes. */
  method LoadEducation(data: Option<seq<Education>>, container: Container?<Block>)
    modifies container
    ensures container != null && data.None? ==> container.children == old(container.children)
    ensures container != null && data.Some? ==> container.children == Rendered(data.value, EducationBlock)
  {
    if data.None? || container == null {
      return;
    }
    container.children := [];
    AppendRendered(container, data.value, EducationBlock);
  }

  /** loadHonors: a missing container means no effect; no data and an empty
      list both give the single encouragement block; otherwise one entry per
      honor in order, after clearing. */
  method LoadHonors(data: Option<seq<Honor>>, container: Container?<Block>)
    modifies container
    ensures container != null && (data.None? || data.value == []) ==>
      container.children == [Encouragement(ENCOURAGEMENT)]
    ensures container != null && data.Some? && data.value != [] ==>
      container.children == Rendered(data.value, HonorBlock)
  {
    if container == null {
      return;
    }
    container.children := [];
    if data.None? || |data.value| == 0 {
      container.children := [Encouragement(ENCOURAGEMENT)];
      return;
    }
    AppendRendered(container, data.value, HonorBlock);
  }

  /** loadInterests: with data and a container, the container is cleared and
      then holds one tile per interest in order; otherwise nothing changes. */
  method LoadInterests(data: Option<seq<Interest>>, container: Container?<Block>)
    modifies container
    ensures container != null && data.None? ==> container.children == old(container.children)
    ensures container != null && data.Some? ==> container.children == Rendered(data.value, InterestBlock)
  {
    if data.None? || container == null {
      return;
    }
    container.children := [];
    AppendRendered(container, data.value, InterestBlock);
  }
}
