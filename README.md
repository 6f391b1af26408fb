# second-brain-app core in Dafny

This project models the core of a personal-knowledge web application. Users
keep notes, links, videos and documents, list and search them, and write
markdown notes in the browser. Six pieces are modelled:

- **The content collection endpoint** (`app/api/content/route.ts`).
  - GET builds a database filter from the query string and the caller's
    session, orders the result pinned-first and newest-first, and returns one
    page with totals.
  - POST runs its ordered checks on a JSON or multipart body, normalises the
    `tagIds` field, and produces the row to create. A JSON body that does not
    parse ends in 500.
  - The database is a value: users by email, memberships, stored items.
  - The filter object is a datatype. `Matches` says what the database selects
    for it, and `Listed` states the access policy per kind of caller.
  - `BuildWhere` is proved to build `WhereFor`, the filter stated as a whole,
    and that filter selects exactly what `Listed` allows, for every item
    whose organisation id is not the literal "__NO__". An item with that
    organisation id can pass the access rule of a caller with no
    memberships (`SentinelOrganizationPasses`), which `Listed` does not allow.
  - `ListContent` is proved to return one window of the ordered selection of
    `WhereFor`, to fail with 500 exactly when the type or visibility is
    outside its enumeration, and, on a store without "__NO__" organisation
    ids, to return one window of the ordered `ListedItems`.
- **The route guard** (`middleware.ts`): three ordered redirect rules over
  the session token and the path.
- **The download names** (`components/DownloadOptions.tsx`): the sanitised
  stem of the `.md` and `.pdf` downloads. The length is counted in UTF-16
  code units, as the regular expression counts them.
- **The note viewer's helpers** (`components/NoteViewer.tsx`):
  - the YouTube embed rewriter, with the URL parser as a parameter;
  - the attachment icon chosen from a MIME type.
- **The local note editor** (`components/CreateNotes.tsx`): the class
  `NoteIndex`.
  - Its fields are the component state plus local storage. `store` maps an
    id to its markdown; `savedIndex` is the index entry.
  - Each user action is a method: load, typing, autosave, create, delete,
    open, edit, save tags, view buttons, resize.
  - Title extraction is a loop proved against `TitleOf`.
  - Tag parsing, tag text and search are functions with lemmas.
- **The notes list** (`components/AllNotes.tsx`): the class `NotesList`.
  - Fetching and deleting each become a start step and a finish step. The
    finish step receives the network outcome.
  - What the page shows is a function of the state.
  - Its `getEmbedUrl` is the same code as the viewer's, so the model uses
    `NoteViewer.EmbedUrl` for both.

Shared modules:

- `JsStrings` gives the JavaScript string operations the code relies on:
  `trim`, one-character `split`, `join`, `startsWith`, `includes`,
  `toLowerCase`, `String(n)` and `JSON.stringify` of a string.
- `Lists` gives removal by id, `filter((n) => n.id !== id)`.

Two behaviours of the listing filter are modelled as the code has them.

- `route.ts:81` sets `where.OR` to the free-text search for `q`, and
  `route.ts:118` assigns the access rule to the same `where.OR`. So for a
  signed-in caller without an owner or organisation parameter the free text
  is discarded. `SearchTextDiscarded` and `SearchTextDiscardedExample` state
  this.
- The access rule is added only when neither `ownerId` nor
  `organizationId` is given (`route.ts:105`). With either parameter, a
  signed-in caller gets no access rule at all.
  `ExplicitFilterBypassesGate` and `OrganizationFilterShowsPrivate` state
  this.

## Model

| member | source | states |
|---|---|---|
| Middleware.Decide | middleware.ts:5-25 | a redirect only ever goes to /login, /verify or /dashboard |
| Middleware.TargetsClassified | middleware.ts:7-21 | /verify is neither a dashboard nor an auth page, /login is an auth page, /dashboard is a dashboard page |
| Middleware.ToLoginExactly | middleware.ts:10-12 | the guard sends a request to /login exactly when the visitor has no token with an email and the path starts with /dashboard |
| Middleware.ToVerifyExactly | middleware.ts:15-17 | the guard sends a request to /verify exactly when a logged-in, unverified user asks for a dashboard path |
| Middleware.ToDashboardExactly | middleware.ts:20-22 | a logged-in user on /login or /signup goes to /dashboard, verified or not, unless an earlier rule applied |
| Middleware.PassThroughExactly | middleware.ts:5-25 | a request passes exactly when dashboard paths are reached only by verified logged-in users and no logged-in user is on an auth page |
| Middleware.LoginAndVerifyPass | middleware.ts:7-22 | anonymous visits to /login and every visit to /verify pass through |
| Middleware.PrefixAndEmptyEmail | middleware.ts:10 | matching is by prefix (/dashboardX is guarded), and a token with an empty email counts as none |
| Middleware.SettlesWithinTwoHops | middleware.ts:10-21 | following the guard's redirects from any path reaches a pass-through in at most two hops |
| Middleware.TwoHopsAreNeeded | middleware.ts:15-21 | an unverified user on /login is redirected twice, to /dashboard and then to /verify |
| DownloadOptions.Sanitize | components/DownloadOptions.tsx:20 | the sanitised name has one character per UTF-16 code unit of the input and holds only letters, digits, '-', '_' and space |
| DownloadOptions.SanitizeAt | components/DownloadOptions.tsx:20 | in the Basic Multilingual Plane each allowed character stays in place and every other becomes '_' |
| DownloadOptions.SanitizeFixesAllowed | components/DownloadOptions.tsx:20 | a name of allowed characters only is left unchanged |
| DownloadOptions.SanitizeIdempotent | components/DownloadOptions.tsx:20 | sanitising twice is sanitising once |
| DownloadOptions.MarkdownFileName | components/DownloadOptions.tsx:14-21 | the markdown download is named by an allowed-only stem followed by ".md" |
| DownloadOptions.PdfFileName | components/DownloadOptions.tsx:65 | the PDF download is named by an allowed-only stem followed by ".pdf" |
| DownloadOptions.SameStem | components/DownloadOptions.tsx:14-65 | both downloads share one stem, and without a filename they are note.md and note.pdf |
| NoteViewer.EmbedUrl | components/NoteViewer.tsx:29-42 | an unparsable link is returned unchanged, and any changed link starts with the YouTube embed prefix |
| NoteViewer.WatchLinkEmbeds | components/NoteViewer.tsx:32-34 | a host containing youtube.com with a non-empty `v` becomes the embed link of that id |
| NoteViewer.MobileHostQualifies | components/NoteViewer.tsx:32 | the host test is a substring test, so m.youtube.com qualifies |
| NoteViewer.ShortLinkEmbeds | components/NoteViewer.tsx:35-37 | a youtu.be link becomes the embed prefix followed by its path |
| NoteViewer.OtherLinksUnchanged | components/NoteViewer.tsx:38 | every other parsed link is returned unchanged |
| NoteViewer.EmptyWatchIdFallsThrough | components/NoteViewer.tsx:32-38 | a youtube.com watch link with an empty `v` is returned unchanged |
| NoteViewer.MimeKind | components/NoteViewer.tsx:300 | the kind holds no '/', is empty for a missing type, and is a prefix of the MIME type |
| NoteViewer.FileIcon | components/NoteViewer.tsx:299-317 | a missing type gives DOC; IMG only for a type starting with "image", VID only for one starting with "video" |
| NoteViewer.MimeKindIs | components/NoteViewer.tsx:300 | the text before the first '/' is `kind` exactly when the MIME type is `kind` or starts with `kind/` |
| NoteViewer.FileIconClassifies | components/NoteViewer.tsx:299-317 | IMG exactly for image or image/…, VID exactly for video or video/…, DOC otherwise and for a missing type |
| ContentFields.Unwrapped | app/api/content/route.ts:35 | a non-empty field list yields its first value; the result is a string or undefined |
| ContentFields.NormalizeFields | app/api/content/route.ts:30-38 | the output has the same keys, each holding its field's unwrapped value |
| ContentFields.NormalizeTagIds | app/api/content/route.ts:198-212 | ids are produced exactly for a truthy array or string; an array maps through String; a string that is not a JSON array gives at least one id |
| ContentFields.CommaListPieces | app/api/content/route.ts:206-209 | an unparsable comma list gives one trimmed, comma-free id per piece, empty pieces included |
| ContentFields.CommaListRoundTrip | app/api/content/route.ts:207-208 | when no piece carries surrounding space, joining the ids with "," gives the field back |
| ContentFields.SingleIdKept | app/api/content/route.ts:205-209 | a non-array JSON value or a comma-free unparsable string becomes a one-element list of the raw string |
| ContentFields.JsonArrayString | app/api/content/route.ts:203-205 | a string holding a JSON array is treated like an array field |
| ContentFields.ArrayElementsStringified | app/api/content/route.ts:201 | numbers become decimal strings and null becomes "null" |
| ContentRoute.IsValidContentType | app/api/content/route.ts:59-61 | a valid type is a truthy string, and the test is case-sensitive, so "note" is refused |
| ContentRoute.WhereFor | app/api/content/route.ts:73-128 | the final filter excludes archived items and carries the type, owner, organisation and tag parameters; an anonymous caller gets PUBLIC and the free text; a signed-in caller gets the requested visibility, and the free text when naming an owner or organisation, otherwise an access rule with a non-empty organisation list |
| ContentRoute.IfGiven | app/api/content/route.ts:75-78 | a parameter is kept exactly when present and non-empty |
| ContentRoute.AnonymousFilter | app/api/content/route.ts:103-104 | for an anonymous caller, forcing PUBLIC onto the parameter filter selects exactly the listed items, for every item, "__NO__" organisation ids included |
| ContentRoute.ExplicitFilter | app/api/content/route.ts:73-99 | with an owner or organisation parameter, the parameter filter without an access rule selects exactly the listed items, for every item, "__NO__" organisation ids included |
| ContentRoute.GatedFilter | app/api/content/route.ts:105-127 | the access rule, with "__NO__" standing for no memberships, in place of the free text selects exactly the listed items, apart from items whose organisation id is "__NO__" |
| ContentRoute.WhereForImplementsPolicy | app/api/content/route.ts:73-128 | the final filter, for an anonymous caller, a caller naming an owner or organisation, and a gated caller alike, selects exactly the listed items apart from "__NO__" organisation ids |
| ContentRoute.BuildWhere | app/api/content/route.ts:73-128 | the filter built step by step, overwrites included, is the filter stated as a whole; it refuses with 401 exactly an unknown gated caller, never selects archived items, and selects exactly what the listing policy allows, apart from items whose organisation id is "__NO__"; a caller with no memberships gets "__NO__" as the organisation list |
| ContentRoute.AnonymousSeesOnlyPublic | app/api/content/route.ts:103-104 | an anonymous caller only ever gets unarchived public items |
| ContentRoute.AnonymousPrivateRequestIgnored | app/api/content/route.ts:78-104 | for an anonymous caller, asking for PRIVATE changes nothing |
| ContentRoute.SignedInGate | app/api/content/route.ts:105-127 | a signed-in caller without parameters gets exactly the unarchived items that are public, their own, or in one of their organisations |
| ContentRoute.PrivateOfOthersHidden | app/api/content/route.ts:118-127 | without owner or organisation parameters, another user's private item is never listed |
| ContentRoute.ExplicitFilterBypassesGate | app/api/content/route.ts:105 | with an owner or organisation parameter, only the explicit filters decide |
| ContentRoute.OrganizationFilterShowsPrivate | app/api/content/route.ts:77-105 | naming an organisation lists another user's private item there, member or not |
| ContentRoute.SearchTextDiscarded | app/api/content/route.ts:80-127 | for a gated signed-in caller the free text does not change the result |
| ContentRoute.SearchTextDiscardedExample | app/api/content/route.ts:118 | searching "zebra" still lists the caller's own item titled "apple" |
| ContentRoute.SentinelOrganizationPasses | app/api/content/route.ts:124 | an organisation item whose organisation id is "__NO__" passes the rule built for a caller with no memberships |
| ContentRoute.Insert | app/api/content/route.ts:140 | inserting into an ordered list keeps it ordered and adds exactly that item |
| ContentRoute.SortForListing | app/api/content/route.ts:140 | the listing order is pinned first, then by descending update time, and is a permutation of the selection |
| ContentRoute.PinnedFirst | app/api/content/route.ts:140 | in listing order every pinned item precedes every unpinned one |
| ContentRoute.PageNumber | app/api/content/route.ts:70 | the page is at least 1, 1 when absent or below 1, and the requested page when that is at least 1 |
| ContentRoute.PageSize | app/api/content/route.ts:71 | the page size lies in [5, 100], is 20 when absent, is the request when inside the range, and is clamped otherwise |
| ContentRoute.TotalPages | app/api/content/route.ts:149 | the page count is the fewest pages of that size that hold the total |
| ContentRoute.Skip | app/api/content/route.ts:141 | page 1 skips nothing and any later page skips at least one page |
| ContentRoute.Window | app/api/content/route.ts:141-142 | a page holds min(take, items left after skip) items, nothing past the end, and its i-th item is the (skip+i)-th of the ordering |
| ContentRoute.WindowOfOrdered | app/api/content/route.ts:140-142 | a page of an ordering is itself ordered and holds only selected items |
| ContentRoute.Select | app/api/content/route.ts:131-132 | the database returns exactly the stored items the filter matches |
| ContentRoute.ListedItems | app/api/content/route.ts:130-144 | the listing holds exactly the stored items the policy allows |
| ContentRoute.SelectIsListed | app/api/content/route.ts:130-144 | a filter implementing the policy selects the same sequence as the policy |
| ContentRoute.ListContent | app/api/content/route.ts:65-155 | GET returns 401 for an unknown gated caller; otherwise 500 exactly when the type or visibility is outside its enumeration, and else succeeds with the clamped page of the ordered selection, the count of the whole selection and the page count; on a store without "__NO__" organisation ids the selection is the listed items |
| ContentRoute.VisibilityField | app/api/content/route.ts:191 | the visibility is `String` of the field when it is truthy and "PRIVATE" otherwise |
| ContentRoute.OptionalString | app/api/content/route.ts:185 | a field gives a string exactly when it is truthy, and that string is `String` of the field |
| ContentRoute.FlagSet | app/api/content/route.ts:192-194 | a flag is set only by a truthy field, and "TRUE", "1" and 1 do not set it |
| ContentRoute.CreateContent | app/api/content/route.ts:159-296 | POST returns 401, 500 (unparsable JSON), 400 (title), 400 (type) and 403 (membership) in that order, and succeeds exactly when every check passes and the visibility is in its enumeration; with every check passed, a visibility outside the enumeration gives 500; on success the owner is the caller, title, excerpt, content, url, type and visibility are the request fields through `String`, visibility defaults to PRIVATE, the flags are set only by "true" or true, and the tag ids are the normalised field |
| CreateNotes.NoteKey | components/CreateNotes.tsx:33 | a note key is the prefix "create_note_v1_" followed by the id, which can be read back after the prefix |
| CreateNotes.StoredText | components/CreateNotes.tsx:142 | the stored text is a JSON object that opens with the "content" key and closes with '}' |
| CreateNotes.StorageKeysDistinct | components/CreateNotes.tsx:32-33 | a note key is never the index key, and distinct ids have distinct keys |
| CreateNotes.TrimmedLines | components/CreateNotes.tsx:40 | the markdown has at least one line, and every line is trimmed |
| CreateNotes.Take | components/CreateNotes.tsx:42 | `slice(0, n)` is a prefix of at most n characters, non-empty for a non-empty input |
| CreateNotes.FirstHeading | components/CreateNotes.tsx:41-42 | the index found is a heading line with no heading before it; none means no heading line exists |
| CreateNotes.FirstNonEmpty | components/CreateNotes.tsx:44 | the line found is non-empty and every line before it is empty; none means every line is empty |
| CreateNotes.TrimmedHeadingHasText | components/CreateNotes.tsx:40-42 | a trimmed heading line has text after its "# " |
| CreateNotes.TitleOf | components/CreateNotes.tsx:39-46 | every markdown text gets a title of 1 to 60 characters |
| CreateNotes.TitleBounds | components/CreateNotes.tsx:39-46 | a title is never empty and never longer than 60 characters |
| CreateNotes.HeadingWins | components/CreateNotes.tsx:41-42 | the first heading gives the title, even after non-empty lines, with its "# " removed once |
| CreateNotes.NoHeadingFallback | components/CreateNotes.tsx:44-45 | without a heading the first non-empty line is the title, and "Untitled note" when there is none |
| CreateNotes.ScanTitle | components/CreateNotes.tsx:41-45 | the scan returns the specified title, between 1 and 60 characters |
| CreateNotes.ExtractTitle | components/CreateNotes.tsx:39-46 | extractTitle returns the specified title of the markdown, between 1 and 60 characters |
| CreateNotes.FirstLineHeading | components/CreateNotes.tsx:39-42 | a trimmed heading on the first line gives the title whatever follows |
| CreateNotes.FreshContentTitle | components/CreateNotes.tsx:99-103 | the fresh note content "# Untitled" followed by two newlines is titled "Untitled" |
| CreateNotes.FreshNoteTitle | components/CreateNotes.tsx:103 | extracting the title of a fresh note gives "Untitled" |
| CreateNotes.FindMeta | components/CreateNotes.tsx:211 | a found entry has the id and no entry before it does; none means no entry has the id |
| CreateNotes.Retitle | components/CreateNotes.tsx:146-152 | only entries with the active id change, and only their title and update time |
| CreateNotes.Retag | components/CreateNotes.tsx:223 | only entries with the active id change, and only their tags |
| CreateNotes.NonEmptyOnlyMembers | components/CreateNotes.tsx:222 | `filter(Boolean)` keeps exactly the non-empty strings |
| CreateNotes.ParseTagsSingle | components/CreateNotes.tsx:219-222 | text without a comma is a single tag, the trimmed text, or no tag at all when that is empty |
| CreateNotes.ParseTagsClean | components/CreateNotes.tsx:219-222 | every parsed tag is non-empty, trimmed and comma-free |
| CreateNotes.TagTextPieces | components/CreateNotes.tsx:225 | the tag text split at commas is the first tag and then each later tag with a leading space |
| CreateNotes.TagTextParses | components/CreateNotes.tsx:219-225 | clean tags written to the tag box parse back to themselves |
| CreateNotes.SaveTagsIdempotent | components/CreateNotes.tsx:217-226 | the text written back after saving tags parses to the saved tags, so saving again changes nothing |
| CreateNotes.MatchesQuery | components/CreateNotes.tsx:248-254 | an empty search text matches every note |
| CreateNotes.FilterNotes | components/CreateNotes.tsx:247-255 | the sidebar shows exactly the notes that match on title, tags or stored text, case-insensitively, and never more notes than the list holds |
| CreateNotes.FilterNotesCount | components/CreateNotes.tsx:247-255 | a matching note appears in the result as many times as in the list, any other note not at all |
| CreateNotes.FilterNotesAppend | components/CreateNotes.tsx:247-255 | searching a concatenation searches each part in turn, so the result keeps the list order |
| CreateNotes.EmptyQueryKeepsAll | components/CreateNotes.tsx:247-255 | an empty search box shows every note in order |
| CreateNotes.JsonKeyMatchesEveryStoredNote | components/CreateNotes.tsx:249 | the search reads the stored JSON text, so "content" matches every stored note |
| CreateNotes.NoteIndex.Load | components/CreateNotes.tsx:65-112 | an empty or absent index is replaced by one stored fresh note; otherwise the first note becomes active and loads only if stored; an unreadable index gives one fresh note in memory |
| CreateNotes.NoteIndex.Filtered | components/CreateNotes.tsx:247-255 | the shown notes are the ordered search result of the current list and search text, exactly the matching notes |
| CreateNotes.NoteIndex.SetMarkdown | components/CreateNotes.tsx:437 | typing replaces the markdown and nothing else |
| CreateNotes.NoteIndex.SetTagInput | components/CreateNotes.tsx:353 | typing replaces the tag box and nothing else |
| CreateNotes.NoteIndex.SetQuery | components/CreateNotes.tsx:276 | typing replaces the search text and nothing else |
| CreateNotes.NoteIndex.SetView | components/CreateNotes.tsx:373-390 | a view button sets the view and nothing else |
| CreateNotes.NoteIndex.Resize | components/CreateNotes.tsx:115-122 | a wide window shows both panes; a narrow one turns "both" into the editor and keeps a single pane |
| CreateNotes.NoteIndex.Autosave | components/CreateNotes.tsx:134-156 | with an active id the markdown is stored under it and its entries get the extracted title and the time; the index entry in storage is not rewritten |
| CreateNotes.NoteIndex.CreateNote | components/CreateNotes.tsx:158-182 | a new "Untitled" note is stored, put first, saved in the index and opened in the editor with an empty tag box |
| CreateNotes.NoteIndex.DeleteNote | components/CreateNotes.tsx:184-204 | after confirmation the stored text and every entry with the id go; an active deleted note hands over to the first remaining one, or to none |
| CreateNotes.NoteIndex.OpenNote | components/CreateNotes.tsx:206-215 | a note opens only when stored, loading its text and tags into the editor |
| CreateNotes.NoteIndex.EditNote | components/CreateNotes.tsx:311-316 | the note becomes active even when not stored; only stored text is loaded |
| CreateNotes.NoteIndex.SaveTagsForActive | components/CreateNotes.tsx:217-226 | only the active note's tags change, the index is saved, and the box shows the canonical tag text |
| Lists.WithoutMembers | components/CreateNotes.tsx:191 | removal by id keeps exactly the elements with another id |
| Lists.WithoutAppend | components/CreateNotes.tsx:191 | removal distributes over concatenation, so the remaining elements keep their order |
| Lists.WithoutAbsent | components/AllNotes.tsx:78 | removing an id no element has changes nothing |
| Lists.WithoutIdempotent | components/AllNotes.tsx:78 | removing twice is removing once |
| AllNotes.VideoFrame | components/AllNotes.tsx:158-161 | a frame is shown exactly for a VIDEO item with a non-empty URL, and its source is the embed rewrite of that URL |
| AllNotes.NotesList.constructor | components/AllNotes.tsx:49-52 | the page starts with no notes, the spinner on, no error and no deletion pending |
| AllNotes.NotesList.View | components/AllNotes.tsx:90-111 | the spinner exactly while loading, then the error, then the empty message, then the cards |
| AllNotes.NotesList.BeginFetch | components/AllNotes.tsx:56-57 | a fetch turns the spinner on and clears the error |
| AllNotes.NotesList.FinishFetch | components/AllNotes.tsx:58-69 | a failure keeps the list and sets the error text; a response's `data` array replaces the list, or empties it when not an array; the spinner stops |
| AllNotes.NotesList.BeginDelete | components/AllNotes.tsx:74 | the note being deleted is recorded and nothing else changes |
| AllNotes.NotesList.FinishDelete | components/AllNotes.tsx:75-83 | on success every entry with the id leaves the list in order; on failure the list is unchanged; no deletion stays pending |

## Left out

- Network, storage, clocks and random ids are not called. Request bodies, sessions, the database contents, local storage, `Date.now()`, `uid()` and fetch outcomes are parameters or fields.
- The database is not executed. Its enum check on `type` and `visibility` is modelled as a 500 from GET (ContentRoute.ListContent) and from POST (ContentRoute.CreateContent). Foreign keys, unique constraints and thrown write errors are not modelled.
- The database leaves ties in the ordering unspecified. The model takes a stable order on the stored sequence.
- ContentRoute.PageNumber and ContentRoute.PageSize take the parameters as integers. `Number(...)` of a non-numeric or fractional string (NaN, floats) is not modelled.
- ContentRoute.CreateContent does not model the file upload, the `metadata` field or the multipart parser itself. These need the filesystem and a streaming parser.
- ContentFields.ToJsString handles integers only. Floating-point numbers are not modelled.
- The PDF rendering in DownloadOptions (canvas, styles) is DOM work and is left out. So is the markdown blob.
- NoteViewer's rendering, size formatting, dates and attachment list are presentation and are left out. FileIcon's result is reduced to the label it shows.
- JsStrings.LowerChar lowercases ASCII letters only. Full Unicode case mapping is not modelled.
- CreateNotes.Take counts Unicode scalar values, whereas `slice(0, 60)` counts UTF-16 units. They differ only for characters outside the Basic Multilingual Plane.
- CreateNotes.NoteIndex.Load models an unreadable index as one case. Malformed note entries and stored texts that fail to parse are not modelled. Neither are storage writes that throw.
- CreateNotes.NoteIndex.Autosave is one step. The 600 ms debounce timer and its cancellation are not modelled.
- The scroll synchronisation of line numbers and the markdown preview are presentation and are left out.
- The `confirm` dialog of CreateNotes.NoteIndex.DeleteNote is a boolean parameter. The `alert` on a failed delete in AllNotes is left out.
- The other API routes and pages are not part of this model.
