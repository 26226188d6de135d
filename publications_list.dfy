/**
  The `publications-list` renderer of js/main.js: one timeline item per
  publication appended after whatever the list already holds, the status
  tag, the GitHub button, and the removal of `mb-10` from the last child.
 */
module PublicationsList {
  import opened JsValues
  import opened Dom

  datatype Publication = Publication(
    title: string, year: string, journal: string, authors: string,
    description: Option<string>, github: Option<string>, status: Option<string>)

  datatype StatusTag = NoTag | FirstAuthorTag | CoFirstAuthorTag

  /** A child of the list: a rendered item (with its `mb-10` margin flag),
      markup the page already had there (an element, or a text node), or the
      load-error message. */
  datatype ListNode =
    | Item(publication: Publication, tag: StatusTag, descriptionLine: bool, githubButton: bool, spaced: bool)
    | Authored(isElement: bool, spaced: bool)
    | LoadError

  const FIRST_AUTHOR := "First Author"
  const CO_FIRST_AUTHOR := "Co-first Author"

  function TagFor(status: Option<string>): StatusTag {
    if status == Some(FIRST_AUTHOR) then FirstAuthorTag
    else if status == Some(CO_FIRST_AUTHOR) then CoFirstAuthorTag
    else NoTag
  }

  function ItemFor(p: Publication): ListNode {
    Item(p, TagFor(p.status), Present(p.description), Present(p.github), true)
  }

  /** `lastChild.classList.remove('mb-10')`; `None` when the last child is a
      text node, which has no classList, so the call throws. */
  function WithoutMargin(n: ListNode): Option<ListNode> {
    match n
    case Item(_, _, _, _, _) => Some(n.(spaced := false))
    case Authored(isElement, _) => if isElement then Some(Authored(true, false)) else None
    case LoadError => Some(LoadError)
  }

  /** The list after the script ran, given its children before and the
      outcome of fetching publications.json (`None` for any error that
      reaches the `catch` before rendering). */
  function AfterLoad(before: seq<ListNode>, result: Option<seq<Publication>>): seq<ListNode> {
    match result
    case None => before + [LoadError]
    case Some(publications) =>
      var appended := before + Rendered(publications, ItemFor);
      if appended == [] then appended
      else match WithoutMargin(appended[|appended| - 1])
        case None => appended + [LoadError]
        case Some(last) => appended[..|appended| - 1] + [last]
  }

  /** A successful load of a non-empty list keeps what was there, then holds
      one item per publication in order; only the last item loses `mb-10`;
      a tag appears exactly for the two author statuses and a GitHub button
      exactly for a non-empty github link. */
  lemma LoadedItems(before: seq<ListNode>, publications: seq<Publication>, k: nat)
    requires publications != [] && k < |publications|
    ensures var r := AfterLoad(before, Some(publications));
      && |r| == |before| + |publications| && r[..|before|] == before
      && r[|before| + k].Item? && r[|before| + k].publication == publications[k]
      && (r[|before| + k].spaced <==> k < |publications| - 1)
      && (r[|before| + k].tag == FirstAuthorTag <==> publications[k].status == Some("First Author"))
      && (r[|before| + k].tag == CoFirstAuthorTag <==> publications[k].status == Some("Co-first Author"))
      && (r[|before| + k].tag == NoTag <==>
            publications[k].status != Some("First Author") && publications[k].status != Some("Co-first Author"))
      && (r[|before| + k].githubButton <==> publications[k].github.Some? && publications[k].github.value != "")
  {
    var items := Rendered(publications, ItemFor);
    var appended := before + items;
    assert appended[|appended| - 1] == items[|publications| - 1];
    assert appended[|before| + k] == items[k];
  }

  /** A failed load appends the error message after the existing children. */
  lemma FailureAppends(before: seq<ListNode>)
    ensures AfterLoad(before, None)[..|before|] == before
    ensures AfterLoad(before, None)[|before|] == LoadError && |AfterLoad(before, None)| == |before| + 1
  {
  }

  /** The script; a page without `publications-list` is left alone. */
  method LoadPublicationsList(container: Container?<ListNode>, result: Option<seq<Publication>>)
    modifies container
    ensures container != null ==> container.children == AfterLoad(old(container.children), result)
  {
    if container == null {
      return;
    }
    if result.None? {
      container.children := container.children + [LoadError];
      return;
    }
    AppendRendered(container, result.value, ItemFor);
    if |container.children| > 0 {
      var n := |container.children|;
      var edited := WithoutMargin(container.children[n - 1]);
      if edited.None? {
        container.children := container.children + [LoadError];
      } else {
        container.children := container.children[..n - 1] + [edited.value];
      }
    }
  }
}
