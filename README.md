# Portfolio page scripts, modelled in Dafny

This project models the two scripts of a static personal portfolio site.

- `js/app.js` fetches JSON documents and renders them into the page:
  - the profile (title, text fields, avatar caption);
  - education, honors and interests lists;
  - the publication list, which has a Show All / Show Less button.
- `js/main.js` adds the page's behaviour:
  - the mobile menu;
  - a second publication-list renderer;
  - an image-gallery modal with keyboard navigation.

The DOM is abstract. A container element is a `Dom.Container<T>` whose `children` is a sequence
of block values. A missing element (`getElementById` returning null) is a null container, an
`Option` field that is `None`, or a `...Present` flag. Each fetch is an input of type
`Option<…>`: `None` is the outcome in which the script's `catch` receives an error.

Modules:

- `JsValues` (js_values.dfy): `Option`; decoded JSON values; JavaScript truthiness; the
  whitespace set of `String.prototype.trim`, and `Trim`.
- `Dom` (dom.dfy): the container class. `Rendered` is "one block per record, in order".
  `AppendRendered` is the `forEach(… appendChild …)` / `innerHTML +=` loop, proved against `Rendered`.
- `Sections` (sections.dfy): `loadProfile`, `loadEducation`, `loadHonors`, `loadInterests`.
- `Publications` (publications.dfy): `loadPublications`.
  - The `selected === true` partition, with an independent membership, multiset and order
    characterisation.
  - `renderCard`'s optional parts.
  - The click handler as a pure step `Clicked`, with a closed form for any number of clicks.
  - The class `PublicationSection`, whose `Load` and `Click` methods are proved against these.
- `PublicationsList` (publications_list.dfy): the `publications-list` renderer of js/main.js.
- `Gallery` (gallery.dfy): the gallery modal.
  - The pure transitions `Shown` (showImage), `Opened` (openModal), `Closed` (closeModal),
    `Pressed` (keydown), `Step` and `Run`.
  - The cursor invariant, kept along any event sequence.
  - The class `GalleryModal`, holding the closure's state; its `Handle` method is proved against `Step`.
- `Menu` (menu.dfy): the mobile-menu toggle and the anchor-click close.

Where the behaviour the code has and the one a reader might expect differ, the model follows the code:

- **Gallery buttons.** Prev/next visibility is computed from the *requested* index
  (js/main.js:164-165), not from the resulting cursor. The two agree whenever the gallery
  has at least two entries (`Gallery.ButtonsMatchCursor`). With a single entry, ArrowRight
  keeps the cursor at 0 but shows the prev button (`Gallery.SingleEntryArrowRight`). The site's
  own "sports" and "photography" galleries have one entry (`Gallery.SportsGalleryArrowRight`).
- **Failed education or interests load.** The loader returns before clearing, so the
  container keeps its authored content; it is not emptied (js/app.js:62, js/app.js:123).
- **No `response.ok` check.** loadPublications does not check `response.ok`
  (js/app.js:141-142). A failed response reaches the `catch` only if its body is not a JSON
  array, so a non-success status is not necessarily an error there.
- **Null publication list.** When `publication-list` is missing and some paper is selected,
  the first `appendChild` throws. The `catch` then finds no container, so the button is never
  set up (js/app.js:183, js/app.js:217-219). When the list is missing and a handler is installed,
  every click throws before changing anything. `PublicationSection.Load` and `Click` state both.
- **Empty publications.json in js/main.js.** With an empty list, `lastChild` is whatever the
  list already ended with. If that is a text node, `classList.remove` throws, and the error
  message is appended even though the load succeeded (`PublicationsList.AfterLoad`).

## Model

| member | source | states |
|---|---|---|
| `JsValues.TrimEmptyIff` | js/app.js:49 | `s.trim()` is empty exactly when every character of `s` is JavaScript whitespace |
| `Sections.CaptionShownIff` | js/app.js:48-54 | the caption test passes exactly when the caption is present and holds some non-whitespace character |
| `Sections.ProfilePage.LoadProfile` | js/app.js:28-56 | null data changes nothing. Otherwise the title is the name followed by the fixed Portfolio suffix. Each element the page has gets its field (avatar src, name, role, university, the motto in double quotes, footer name, bio). Absent elements stay absent |
| `Sections.ProfilePage.ShowCaption` | js/app.js:47-55 | a present caption element shows the caption text and loses `hidden` when the caption test passes. Otherwise it gets `hidden` and keeps its text. An absent element stays absent |
| `Dom.AppendRendered` | js/app.js:183 | the append loop leaves the previous children followed by one rendered block per record, in order |
| `Sections.LoadEducation` | js/app.js:59-80 | with data and a container, the container holds exactly one entry per record in array order. With null data it is unchanged |
| `Sections.LoadHonors` | js/app.js:83-117 | null data and an empty list both leave exactly the one encouragement block with the fixed text. Otherwise the container holds one entry per honor, in order. A missing container is untouched |
| `Sections.LoadInterests` | js/app.js:120-133 | with data and a container, the container holds exactly one tile per interest, in order. With null data it is unchanged |
| `Sections.InterestTileLink` | js/app.js:128 | a tile's href is the interest's link when that is a non-empty string, and `#` otherwise |
| `Publications.Partition` | js/app.js:147-148 | a paper is primary iff its `selected` is the boolean `true`. It is other iff `selected` is anything else (false, missing, null, other truthy values). The two multisets add up to the input |
| `Publications.PartitionKeepsOrder` | js/app.js:147-148 | both filters distribute over concatenation, so each list keeps source order |
| `Publications.InitialRender` | js/app.js:151-183 | the initial render is one card per primary paper, in order. Every card is unanimated and shows a paper from the input whose `selected` is `true` |
| `Publications.ClicksAlternate` | js/app.js:200-214 | from the initial render, after n ≥ 1 clicks the list, state and label are exactly the expanded or the collapsed view. Which one alternates with n, starting from whether the authored state is `'collapsed'` |
| `Publications.ExpandedCards` | js/app.js:202-206 | the expanded list keeps the primary cards unanimated at the front. After them come the other papers' cards, animated, in order |
| `Publications.ExpandThenCollapse` | js/app.js:207-213 | expand then collapse restores the initial list and the `'collapsed'` state |
| `Publications.ExpandCollapseExpand` | js/app.js:200-214 | three clicks from the initial render give the same list, state and label as one |
| `Publications.PublicationSection.constructor` | js/app.js:137-138 | the section starts with the authored `data-state` and label, the authored style and no handler |
| `Publications.PublicationSection.Load` | js/app.js:136-221 | failure replaces the list with the failure message and leaves the button alone. Success leaves exactly the primary cards. With no other papers the button gets 'No More Papers', the muted style and no handler, and its state is untouched. Otherwise it is activated with a handler capturing both lists |
| `Publications.PublicationSection.Click` | js/app.js:200-214 | without a handler (or without a list) nothing changes. Otherwise the list, `data-state` and label take one `Clicked` step: `'collapsed'` appends the other papers animated and sets `'expanded'`/Show Less. Any other state re-renders the primary cards and sets `'collapsed'`/Show All |
| `PublicationsList.LoadedItems` | js/main.js:93-123 | a successful non-empty load keeps the existing children and appends one item per publication, in order. Only the last item loses `mb-10`. The tag is First/Co-first exactly for those two statuses and none otherwise. A GitHub button appears exactly for a non-empty github link |
| `PublicationsList.FailureAppends` | js/main.js:125-127 | a failed load appends the error message after the existing children instead of replacing them |
| `PublicationsList.LoadPublicationsList` | js/main.js:84-128 | the list ends as `AfterLoad` of its previous children and the fetch outcome. A page without the list is untouched |
| `Gallery.OpenedResets` | js/main.js:167-174 | a key with a non-empty gallery opens it at entry 0: the modal is shown, body scrolling is hidden, prev is hidden and next is shown iff there is a second entry. Any other key changes nothing |
| `Gallery.ShownMovesCursor` | js/main.js:158-163 | an index inside the gallery sets cursor, image and caption to that entry. An out-of-range index leaves all three unchanged. The gallery, visibility and scrolling never change |
| `Gallery.ButtonsFollowRequest` | js/main.js:164-165 | prev is shown iff the requested index is > 0. Next is shown iff it is < length − 1 |
| `Gallery.BoundariesHold` | js/main.js:184-185 | prev at index 0 and next at the last index change neither the cursor nor the displayed image and caption |
| `Gallery.ButtonsMatchCursor` | js/main.js:158-166 | with at least two entries, after prev or next the buttons match the cursor: prev hidden only at 0, next only at the end |
| `Gallery.SingleEntryArrowRight` | js/main.js:164-165 | with one entry, ArrowRight keeps the cursor at 0 but shows prev and hides next |
| `Gallery.ClosedKeepsCursor` | js/main.js:175-179 | closing hides the modal, sets overflow `'auto'` and clears the image. Cursor, gallery, caption and buttons are untouched |
| `Gallery.KeysAndBackdrop` | js/main.js:183-192 | keys act only while the modal is open: Escape closes, ArrowLeft is prev, ArrowRight is next, other keys do nothing. A modal click closes only when the backdrop is the target |
| `Gallery.StepKeepsInv` | js/main.js:156-185 | every event keeps the cursor at 0 with no gallery, or inside the active gallery. The active gallery stays one of the static ones |
| `Gallery.RunKeepsInv` | js/main.js:156-192 | the same holds after any sequence of events |
| `Gallery.SiteGalleriesShape` | js/main.js:136-143 | every static gallery is non-empty, and "sports" and "photography" hold one entry each |
| `Gallery.GalleryModal.constructor` | js/main.js:145-156 | the closure starts with the static map, an empty gallery and cursor 0. Its listeners exist only if the page has the modal and a trigger |
| `Gallery.GalleryModal.ShowImage` | js/main.js:158-166 | the fields change exactly as `Shown` says |
| `Gallery.GalleryModal.OpenModal` | js/main.js:167-174 | the fields change exactly as `Opened` says |
| `Gallery.GalleryModal.CloseModal` | js/main.js:175-179 | the fields change exactly as `Closed` says |
| `Gallery.GalleryModal.Handle` | js/main.js:181-192 | a wired page takes one `Step` per event and keeps the invariant. An unwired page never changes |
| `Gallery.SportsGalleryArrowRight` | js/main.js:141 | opening "sports" and pressing ArrowRight leaves cursor 0 with prev shown and next hidden |
| `Menu.MobileMenu.ToggleClick` | js/main.js:40-42 | with both elements present a click flips `hidden`, so two clicks restore it. Otherwise nothing changes |
| `Menu.MobileMenu.AnchorClick` | js/main.js:48-50 | an anchor click leaves the menu hidden: an open menu closes and a closed one stays closed |

## Left out

- The component loader and its `componentsLoaded` event (js/main.js:3-31): promise plumbing and event ordering only.
- The network. `fetch`, HTTP status and JSON parsing are replaced by each loader's outcome, given as an `Option` input. fetchData's error logging is dropped too.
- Clock reads: the cache-busting timestamps (js/app.js:17, js/app.js:141) and the footer year (js/app.js:10-11).
- Scroll effects: the fade-in (js/main.js:61-78) and smooth scrolling (js/main.js:51-57). They use floating-point layout values and window APIs. Only the anchor handler's menu close is modelled.
- Markup strings and styling classes, and the image `onerror` hiding.
  - Blocks record the fields and flags that matter.
  - The bio's markup is kept as an opaque string.
  - The button's opacity and cursor become `Muted`/`Active`.
  - `innerHTML +=` re-serialising existing children is treated as keeping them.
- Malformed records. Display fields are strings, so a missing one rendering as "undefined" is not modelled. A record that is not an object, and would throw in the middle of a render loop, is not modelled either.
- Sections.ProfilePage.LoadProfile: assumes `avatarCaption` is missing, null or a string. On a non-string truthy value `trim` would throw after the other fields were set.
- JsValues.Truthy: numbers are integers, so NaN is not modelled.
- Gallery.Opened: looks up only the map's own keys. A `data-gallery` value naming an inherited property such as "constructor" is not modelled.
- Gallery.GalleryModal: assumes the close button, image, caption and prev/next buttons exist whenever the modal and a trigger do.
- Concurrency between the independent loaders: each one owns its own elements and is modelled on its own.
