# Web Bookmark block — a Dafny model

The Web Bookmark block is a WordPress block: an author pastes a URL, the
editor asks the plugin's REST route for the page's HTML, a link-preview
library pulls out the title, description, favicon and preview image, and the
block stores that snapshot in its attributes. The block then renders a
bookmark card, once as an editable preview and once as the static markup
saved into the post.

This project models three parts of it and proves properties about them:

- **The editor state machine** (`src/edit.js`). `Edit.BookmarkEditor` holds
  the attribute record and the two editor-local flags, `isFetchingURL` (busy)
  and `isFetchError` (error). Its methods are the events that change them:
  - URL input;
  - the setter table;
  - a user action that may start a fetch;
  - the request's response or rejection;
  - the extraction callback that commits the snapshot.

  Each method's new state is given by a pure function on the record
  (`AcceptInput`, `CommitPreview`, and `ApplySetter` from the setter table
  in `Setters`). Lemmas state what each transition changes and what it
  leaves alone. They also prove that the
  invariant `Edit.Consistent` is kept: a fetched block has a URL, a valid
  flag means there is a URL to request, and a present input agrees with its
  validity flag.
- **The editor's render derivations** (`EditView`): the wrapper class list,
  the URL panel, the guards on the three fetch triggers, the disabled state of
  the dependent controls, and the preview card.
- **The saved markup** (`SavedMarkup`, from `src/save.js`): a pure function
  from the record to an abstract tree. The tree holds the wrapper classes,
  the overlay anchor, the title anchor, the URL line with its favicon, and the
  image anchor with its inline style.
- **The target resolver and URL validation** (`Functions`, from
  `src/functions.js`).

`Agreement` relates the editor to the saved markup. It covers the two class
lists, the parts both cards show, and which disabled controls can still
change what is saved.

Modelling conventions:
- A nullable string attribute is an `Option<string>`. JavaScript truthiness
  of one (`siteFavicon && …`) is "present and not empty" (`Functions.Truthy`).
- A template literal turns `null` into the text `"null"`.
- `cardAlignment` has two values, `Top` and `Right`. The string values of
  `CARD_ALIGN_TOP` and `CARD_ALIGN_RIGHT` live in `src/constants.js`, which is
  not part of this model.
- The host's `URL` constructor is a total function parameter that either
  constructs or throws (`Functions.UrlConstructor`). The editor keeps it as a
  constant.
- Asynchronous callbacks are separate method calls. Each callback receives
  the URL that `fetchSiteMeta`'s closure captured when the fetch started.

Behaviour of the source worth knowing:
- An extraction that rejects has no handler, so busy stays set and no error
  is shown. A throw inside the extraction callback comes after both flags are
  cleared (src/edit.js:164-165), so the block is left idle with no error and
  nothing committed. The model has no transition for either.
- The Enter key starts a fetch whenever the URL is valid, even while a fetch
  is running (`EditView.EnterFiresWhileFetching`). Only the button and the
  toolbar reload check the busy flag.
- The toolbar reload ignores `isURLValid` and requests
  `siteUrlInput ?? siteUrl` (src/edit.js:236-239, 152). A fetched block whose
  typed input is invalid re-fetches that invalid input, not the committed URL
  (`Edit.RequestedURL`, `EditView.FetchFires`).
- The link target tokens are `_blank` and `_self`.
- The two class lists differ in more than the editor-only
  `is-fetching-url`: `has-click-overlay` is commented out in the editor and
  appears only in the saved markup.

## Model

| member | source | states |
|---|---|---|
| Functions.ValidateURL | src/functions.js:9-16 | every input yields a boolean: true when the URL constructor accepts it, false exactly when it throws |
| Functions.Interpolate | src/functions.js:38 | a present string interpolates to itself; null becomes the text "null" |
| Functions.GetTargetURI | src/functions.js:36-41 | without hiding the URL comes back unchanged (null included); with hiding the result is present, and it is the redirector prefix followed by the interpolated URL, with no re-encoding |
| Functions.HrefLiPrefixLength | src/functions.js:38 | the redirector prefix `https://href.li/?` has 17 characters |
| Functions.TargetOfVisibleUrl | src/functions.js:40 | `getTargetURI(u, false) == u` for every string u |
| Functions.TargetOfHiddenUrl | src/functions.js:38 | `getTargetURI(u, true) == "https://href.li/?" + u` for every string u |
| Functions.UnhideTarget | src/functions.js:38 | stripping the prefix succeeds exactly on strings that start with it; putting the prefix back gives the input again |
| Functions.UnhideHiddenTarget | src/functions.js:38 | round trip: stripping the prefix from a hidden target gives back the original URL |
| Functions.HiddenTargetInjective | src/functions.js:38 | two present URLs with the same hidden target are equal |
| Functions.HiddenNullCollides | src/functions.js:36-41 | a null URL and the string "null" get the same hidden target but different visible ones |
| Classnames.ClassNames | src/save.js:63-76 | the class list holds a name exactly when some entry of the object literal has that name switched on, and is no longer than the literal |
| CardLayout.CardImageStyle | src/save.js:129-142 | the background is `url(image)`; position is `center` iff centred; pixel height iff top layout, percent width iff right layout, never both; the values are `siteImageTopHeight` and `siteImageRightWidth` percent |
| SavedMarkup.WindowTarget | src/save.js:56 | the target is `_blank` iff `openInNewWindow`, else `_self` |
| SavedMarkup.TargetURI | src/save.js:58 | the card's single href is `siteUrl` when the referrer is shown, and the redirector prefix plus `siteUrl` when it is hidden |
| SavedMarkup.SavedClasses | src/save.js:62-77 | unfetched: no classes. Fetched: each of `has-site-image`, `has-border-radius`, `has-link-underline`, `has-click-overlay` iff its flag, and the alignment class that matches `cardAlignment`, and nothing else: a name is listed exactly when one of these holds |
| SavedMarkup.Overlay | src/save.js:81-92 | the overlay anchor is present iff `useClickOverlay`; it links to the target URI with the window target and carries the title |
| SavedMarkup.SavedMetaLink | src/save.js:107-122 | the URL line is present iff `displaySiteUrl`, whatever `displaySiteFavicon` says; the favicon is shown iff `displaySiteFavicon` and a non-empty favicon, and it is that favicon; the URL anchor is shown iff `siteUrl` is non-empty and links to the target URI |
| SavedMarkup.SavedImage | src/save.js:124-149 | the image anchor is present iff `displaySiteImage` and a non-empty image. Its style is the card image style. It has a target or href only when `siteImageClickable`, and when clickable both are set (not gated by the overlay) |
| SavedMarkup.Save | src/save.js:33-156 | the wrapper has a card iff `isURLFetched`; the card is overlay, title anchor, description, URL line and image as above |
| SavedMarkup.SavedLinksAgree | src/save.js:84-128 | every anchor of a saved card (overlay, title, URL line, clickable image) has href `getTargetURI(siteUrl, hideReferer)` and target `_blank` iff `openInNewWindow`, else `_self` |
| SavedMarkup.SaveUnfetched | src/save.js:64-153 | an unfetched record saves an empty wrapper: no classes (the class list at lines 64-75) and no children (the empty fragment at lines 151-153) |
| SavedMarkup.SavedAlignmentExclusive | src/save.js:70-73 | a fetched record carries exactly one of the two alignment classes |
| EditView.EditorClasses | src/edit.js:189-206 | unfetched: exactly `wb-link-entry`. Fetched: `is-fetching-url` iff busy, and each appearance class iff its flag. a name is listed exactly when one of these holds |
| EditView.EditorClassesFetched | src/edit.js:190-202 | a fetched block never shows both alignment classes, never `has-click-overlay`, never `wb-link-entry` |
| EditView.Panel | src/edit.js:249-286 | the fetch button is disabled iff busy or the URL is invalid, and primary iff valid. The error notice shows iff the last fetch failed, the spinner iff busy, the reload control iff fetched. The text field shows the input, else `""` before fetching, else the committed URL |
| EditView.FetchFires | src/edit.js:236-279 | a trigger fires only with a valid URL, or as the reload of a fetched block. Every trigger but Enter fires only when not busy. The button fires iff it is enabled, Enter iff the URL is valid, and the toolbar reload iff the block is fetched and not busy |
| EditView.EnterFiresWhileFetching | src/edit.js:253-257 | with a valid URL, Enter starts a fetch even while one is running; the button and the reload do not |
| EditView.ControlStates | src/edit.js:292-442 | underline disabled iff overlay; favicon iff `!displaySiteUrl`; image-clickable iff `!displaySiteImage` or overlay; centre and alignment iff `!displaySiteImage`; the height range exists only in the top layout, the width range only in the right one, each disabled iff `!displaySiteImage` |
| EditView.Preview | src/edit.js:446-496 | the preview shows title, description and the raw `siteUrl`. Its URL line, favicon, link and image appear under the same conditions as in the saved markup; the favicon is `siteFavicon`, the URL-line text is `siteUrl`, and the image carries the card image style |
| Setters.ApplySetterWrites | src/edit.js:118-124 | `ApplySetter`, the merge of `{ [ prop ]: enabled }`, gives the setter's named attribute the value passed (`Carries`) |
| Setters.ApplySetterFrame | src/edit.js:104-125 | a setter leaves every attribute but its own unchanged |
| Setters.SetterTableKeys | src/edit.js:104-117 | the setter table is keyed by exactly the thirteen appearance and behaviour attributes |
| Setters.SetterKeepsContent | src/edit.js:118-124 | no setter changes the URL, the lifecycle flags or the metadata snapshot |
| Edit.RequestedURL | src/edit.js:152 | a fetch requests `siteUrlInput` when present, else `siteUrl` |
| Edit.AcceptInput | src/edit.js:137-140 | an accepted input sets `siteUrlInput` and `isURLValid` together, changes nothing else, and becomes the URL a fetch will request |
| Edit.First | src/edit.js:168-169 | `list[0] ?? null`: present iff the list is non-empty, and then its first element |
| Edit.CommitPreview | src/edit.js:166-174 | a commit makes the block fetched with `siteUrl` the requested URL and the input cleared. Favicon and image are the first of their lists or null; title and description are the library's values or null. Restoring those seven attributes gives back the old attributes, so appearance, behaviour and `isURLValid` are untouched |
| Edit.NewBlockConsistent | src/edit.js:136-141 | a block that starts as `Edit.NewBlock` assumes (unfetched, invalid, no URL or metadata; the `block.json` defaults are not part of this model) satisfies the consistency invariant that the input handler keeps |
| Edit.AcceptInputConsistent | src/edit.js:135-142 | an accepted input keeps the invariant: `isURLValid` agrees with `validateURL` of the new input |
| Edit.CommitPreviewConsistent | src/edit.js:166-174 | committing a present URL keeps the invariant |
| Edit.ApplySetterConsistent | src/edit.js:118-124 | every setter keeps the invariant |
| Edit.FiredFetchHasURL | src/edit.js:147-153 | in a consistent record every action that starts a fetch has a present URL to request |
| Edit.BookmarkEditor.constructor | src/edit.js:127-128 | mounting the editor starts with busy and error both false, and a newly inserted block starts consistent |
| Edit.BookmarkEditor.OnSiteUrlInputChange | src/edit.js:135-142 | while busy the input is ignored; otherwise the record becomes `AcceptInput` with `validateURL` of the input; the flags are unchanged and the invariant is kept |
| Edit.BookmarkEditor.Set | src/edit.js:118-124 | a setter call applies `ApplySetter`, leaves the flags alone and keeps the invariant |
| Edit.BookmarkEditor.FetchSiteMeta | src/edit.js:147-153 | starting a fetch sets busy, clears the error, changes no attribute and requests `siteUrlInput ?? siteUrl` |
| Edit.BookmarkEditor.Activate | src/edit.js:236-279 | an action starts a fetch exactly when its guard fires, and otherwise changes nothing. In a consistent editor a started fetch requests a present URL |
| Edit.BookmarkEditor.OnFetchResponse | src/edit.js:155-180 | `success: false` sets the error and clears busy; success hands the HTML and the requested URL to the extractor and changes nothing. No attribute changes either way |
| Edit.BookmarkEditor.OnFetchRejected | src/edit.js:181-184 | a rejected request sets the error, clears busy and leaves every attribute as it was |
| Edit.BookmarkEditor.OnPreviewExtracted | src/edit.js:163-175 | the extraction callback clears both flags and applies `CommitPreview`; committing a present URL keeps the invariant |
| Edit.SuccessfulCycle | src/edit.js:147-175 | action, successful response, extraction: the attributes end as `CommitPreview` of the requested URL and the extracted metadata, so the block is fetched on that URL with the extracted title, no input, no error and not busy, and stays consistent |
| Edit.FailedCycle | src/edit.js:147-184 | action then failure or rejection: every attribute is what it was, the error is set and busy is cleared |
| Agreement.SavedClassesFromEditor | src/save.js:63-76 | for a fetched block the saved classes are the editor's minus `is-fetching-url`, plus `has-click-overlay` when the overlay is on |
| Agreement.UnfetchedClasses | src/edit.js:203-205 | before the first fetch the editor shows only `wb-link-entry` and the saved wrapper has no class and no child |
| Agreement.PreviewMatchesSaved | src/edit.js:446-496 | preview and saved card show the same title, description, favicon, URL-line text and image style. Preview links carry the raw `siteUrl`; saved links carry the target URI |
| Agreement.ControlUsable | src/edit.js:292-442 | a control can be used only on a fetched block. The favicon toggle needs `displaySiteUrl`. The height and width ranges need `displaySiteImage` and their own layout |
| Agreement.DisabledControlIsInert | src/edit.js:346-442 | on a fetched block, using a disabled favicon, centring, height or width control would not change the saved markup. Neither would the image-clickable toggle when the image is hidden |
| Agreement.DisabledUnderlineStillSaved | src/edit.js:299 | the underline toggle is disabled under the overlay, yet its value still decides the saved `has-link-underline` class |
| Agreement.DisabledAlignmentStillSaved | src/edit.js:390 | the alignment select is disabled while the image is hidden, yet the alignment still decides the saved alignment class |
| Agreement.DisabledClickableStillSaved | src/edit.js:370-372 | the image-clickable toggle is disabled under the overlay, yet it still decides whether the saved image anchor has a target |

## Left out

- `web-bookmark-block.php`: block registration, the REST route, its permission check and `wp_remote_get` are host I/O. Only the route's two answers are modelled (`Edit.FetchResponse`).
- The link-preview library's HTML parsing (Open Graph, favicon fallback) is not part of this model. Its result is an opaque record of favicon and image lists and an optional title and description.
- A rejected extraction has no handler, so busy stays set. A throw inside the extraction callback (for example `meta.favicons[ 0 ]` with no favicon list) comes after both flags are cleared (src/edit.js:164-165), so the block is left idle with no error and nothing committed. The model has no transition for either.
- `getBaseURL` is unused by the editor and the saved markup, and rests on the host's `URL` constructor, so it is not modelled.
- Functions.ValidateURL: the WHATWG URL parsing rules are foreign code. The constructor is an arbitrary total function, so which strings count as URLs is not stated.
- Promise scheduling, batching of React state updates and stale closure values: each callback is one event on the current state. An input-change event sees the busy flag of the latest render.
- Destroying the block while a fetch is in flight is not modelled; the source does not guard against it.
- React and JSX rendering, `useBlockProps` (and the block class the host adds to the wrapper), i18n strings, icons, the spinner element, `rel="noopener"`, screen-reader text, and the toolbar control's title, icon and active state. Both outputs are abstract records.
- Classnames.ClassNames: the class list is a sequence of names, not the space-joined string `classnames` returns.
- The editor click handler at src/edit.js:208-216 does nothing, because its `window.open` is commented out.
- Image height and width are exact reals, not JavaScript floating point. The range bounds (200–600, 32.8–50) and steps are UI-only and not enforced on the attributes. `${ w }%` formatting is the abstract `Percent(w)`.
- The attribute defaults in `block.json` are not part of this model. `Edit.NewBlock` takes a new block to be unfetched, invalid and without URL or metadata; an absent string attribute is taken to be null.
