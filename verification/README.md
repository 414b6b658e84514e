# Template library and template builder pages, modelled in Dafny

This project models the two pieces of client-side logic of the docusave
dashboard that carry state: the template library page
(`src/app/dashboard/productivity/templates/page.tsx`) and the template
builder page (`src/app/dashboard/productivity/template-builder/page.tsx`).
Each page's React state becomes an immutable record, each handler a pure
function over it, and every Firestore or HTTP result an input value.

- `optional.dfy` — `Option`, for the pages' nullable fields.
- `account.dfy` — `SignedIn`, when a uid counts as present.
- `seqs.dfy` — `Filter`, the model of `Array.prototype.filter`, with its
  subsequence, membership and multiplicity lemmas.
- `text.dfy` — ASCII lower-casing and `includes`, with the scan proved
  equal to an "occurs at some position" reference definition.
- `js_value.dfy` — JSON values, `undefined` for a missing property,
  JavaScript truthiness, and the top-level properties `JSON.stringify`
  writes out.
- `template_library.dfy` (module `TemplateLibrary`) — loading the account's
  templates newest first, deleting, searching, preview choice and what the
  page renders.
- `template_builder.dfy` (module `TemplateBuilder`) — the token fetch, the
  builder's `onSave` with its detail fetch, and the two halves of the save
  click, as a transition function `Step` over `BuilderPage` with effects
  (alert, save request, navigation) returned beside the new state.

Modelling choices:

- A missing user, a missing uid and an empty uid are all falsy in the
  source; the model passes the uid as a string and `""` stands for all three.
- The load step models the query on `userId` as a filter of the
  collection, then gives each document the document id with the stored
  fields spread over it. Because the stored fields come second, a stored
  `id` field replaces the document id; `FromDocument` keeps that behaviour. The
  builder's save body spreads the builder payload, which has an `id`, so
  whether stored records carry one depends on the save route, which is not
  part of this model.
- `Array.prototype.sort` is stable, so the sort is modelled as a stable
  insertion sort and proved newest first, a permutation of its input, and
  stable among equal creation times. Those three facts fix the result.
- The save click is split into `SaveClicked` (the guard, `isSaving = true`
  and the request) and `SaveSettled` (the answer and the `finally`), so
  that the disabled Save button while a save is outstanding is visible in
  the state.
- A failed detail fetch keeps the previous `pendingTemplate`
  (template-builder/page.tsx:52-55), and a successful save leaves it in
  place (template-builder/page.tsx:83-85); `TemplateBuilder.DraftPersists`
  states it.
- The save request carries the draft as `JSON.stringify` writes it out:
  top-level properties whose value is `undefined` (a detail property the
  detail reply did not have, for one) are not sent.

## Model

| member | source | states |
|---|---|---|
| `TemplateLibrary.Load` | src/app/dashboard/productivity/templates/page.tsx:29-61 | Without a uid the page is unchanged (loading stays true); a failed query sets "Failed to load templates" and keeps the list; a snapshot yields a newest-first permutation of the owned documents, all owned by the uid; `loading` ends either way |
| `TemplateLibrary.LoadedAreOwned` | src/app/dashboard/productivity/templates/page.tsx:34-43 | Every loaded template has `userId` equal to the uid the query ran with |
| `TemplateLibrary.LoadShowsOwnedDocuments` | src/app/dashboard/productivity/templates/page.tsx:34-51 | A template is loaded if and only if it is the page form of some document of the collection owned by the uid |
| `TemplateLibrary.InsertByTime` | src/app/dashboard/productivity/templates/page.tsx:45-49 | Inserting into a newest-first list keeps it newest first and adds exactly the one template |
| `TemplateLibrary.SortNewestFirst` | src/app/dashboard/productivity/templates/page.tsx:45-49 | The sorted list is in non-increasing `createdAt` order and is a permutation of the input |
| `TemplateLibrary.SortIsStable` | src/app/dashboard/productivity/templates/page.tsx:45-49 | Templates with equal creation time keep their query order |
| `TemplateLibrary.UndatedNeverPrecedesDated` | src/app/dashboard/productivity/templates/page.tsx:46-47 | A template without `createdAt` counts as time 0, so no template after it has a positive time |
| `TemplateLibrary.FailedFirstLoad` | src/app/dashboard/productivity/templates/page.tsx:51-57 | A failed first load leaves `templates` empty and shows the error box with "Failed to load templates" |
| `TemplateLibrary.NoUserKeepsSpinning` | src/app/dashboard/productivity/templates/page.tsx:24-31 | With no uid, `loading` stays true and the page shows only the spinner |
| `TemplateLibrary.Delete` | src/app/dashboard/productivity/templates/page.tsx:63-94 | A request is sent only when confirmed and signed in, for that id with the uid; cancel, missing uid and a failed call leave the page unchanged, with the matching alert; only `templates` ever changes, to a subsequence without the id |
| `TemplateLibrary.DeleteRemovesExactly` | src/app/dashboard/productivity/templates/page.tsx:85-89 | A successful delete drops every entry with that id and keeps every other entry as often as before, in order |
| `TemplateLibrary.SearchIsExact` | src/app/dashboard/productivity/templates/page.tsx:96-98 | The search result is an order-preserving subsequence holding exactly the templates whose lower-cased name contains the lower-cased query, with their multiplicity |
| `TemplateLibrary.EmptySearchKeepsAll` | src/app/dashboard/productivity/templates/page.tsx:96-98 | An empty query keeps the whole list |
| `TemplateLibrary.SearchIsCaseInsensitive` | src/app/dashboard/productivity/templates/page.tsx:96-98 | Queries that agree up to ASCII case give the same search result, and names that agree up to case are matched alike |
| `TemplateLibrary.PreviewOf` | src/app/dashboard/productivity/templates/page.tsx:205-208 | An image is shown exactly when `preview_url` or `preview_image_url` is non-empty, using `preview_url` first; its source is never empty; otherwise the placeholder icon |
| `TemplateLibrary.RenderShowsMatches` | src/app/dashboard/productivity/templates/page.tsx:100-200 | The spinner shows exactly while loading, the error box exactly when an error is set after loading; otherwise every template the search keeps gets exactly one card, in the search's order, with its preview, and the empty state shows exactly when nothing matched |
| `Text.IncludesIsOccurrence` | src/app/dashboard/productivity/templates/page.tsx:97-97 | The `includes` scan holds exactly when the needle occurs at some position of the haystack |
| `Text.EmptyIsIncluded` | src/app/dashboard/productivity/templates/page.tsx:97-97 | Every name includes the empty string |
| `TemplateBuilder.FetchToken` | src/app/dashboard/productivity/template-builder/page.tsx:17-35 | A truthy `error` in the reply becomes the page error and leaves the token; otherwise the token is `jwt`; a thrown fetch sets "Failed to initialize form builder"; draft and saving flag untouched |
| `TemplateBuilder.TokenDecidesView` | src/app/dashboard/productivity/template-builder/page.tsx:94-179 | From the initial page the builder is rendered exactly when the reply has no truthy `error` and a truthy `jwt`, and the error view replaces it exactly when the fetch failed |
| `TemplateBuilder.Draft` | src/app/dashboard/productivity/template-builder/page.tsx:46-51 | The draft has the payload's properties plus `pdfUrl`, `preview_url`, `docusealData` taken from the detail, which override same-named payload properties |
| `TemplateBuilder.TemplateChanged` | src/app/dashboard/productivity/template-builder/page.tsx:37-56 | A good detail replaces the pending draft; a thrown fetch or truthy `error` sets "Failed to fetch template details" and keeps the previous draft |
| `TemplateBuilder.LastDraftWins` | src/app/dashboard/productivity/template-builder/page.tsx:46-51 | After a successful `onSave` the draft does not depend on the earlier page; every property it has comes from the new payload or the detail |
| `TemplateBuilder.SecondDraftIsSaved` | src/app/dashboard/productivity/template-builder/page.tsx:37-75 | After two drafts in a row, the save request carries only the second draft, stamped with the uid and serialised |
| `TemplateBuilder.SaveBody` | src/app/dashboard/productivity/template-builder/page.tsx:71-74 | The save body is the draft with `userId` set to the uid, overriding any `userId` it had; every other property is the draft's |
| `TemplateBuilder.ClickSave` | src/app/dashboard/productivity/template-builder/page.tsx:58-75 | With no draft or no uid the click only alerts and changes nothing; otherwise the page is saving and the request body carries `userId` equal to the uid and exactly the draft's other properties whose value is not `undefined`, with their values |
| `TemplateBuilder.SettleSave` | src/app/dashboard/productivity/template-builder/page.tsx:76-91 | `isSaving` is false after every answer; navigation happens exactly on an ok answer with truthy `success`; a non-ok or thrown answer sets "Failed to save template"; the draft is never cleared |
| `TemplateBuilder.NavigatesOnlyOnSuccess` | src/app/dashboard/productivity/template-builder/page.tsx:77-85 | Of all events, only an ok save answer with truthy `success` navigates |
| `TemplateBuilder.SaveRequestIsStamped` | src/app/dashboard/productivity/template-builder/page.tsx:59-74 | A save request is sent exactly on a click with a pending draft and a uid, and its body is that draft stamped with the uid, as serialised |
| `TemplateBuilder.EnabledSaveSends` | src/app/dashboard/productivity/template-builder/page.tsx:133-136 | A click on the enabled Save button with a uid sends the request and leaves the button disabled right after the click |
| `TemplateBuilder.ErrorPersists` | src/app/dashboard/productivity/template-builder/page.tsx:94-112 | No event clears the error, so once the error view replaces the builder it stays |
| `TemplateBuilder.DraftPersists` | src/app/dashboard/productivity/template-builder/page.tsx:46-91 | No event clears a pending draft, neither a failed detail fetch nor a successful save |
| `TemplateBuilder.DraftAlwaysHasDetail` | src/app/dashboard/productivity/template-builder/page.tsx:46-51 | From the initial page, any pending draft in the page state has the properties `pdfUrl`, `preview_url` and `docusealData` (possibly `undefined`; see `SentDetailOnlyWhenDefined` for what is sent) |
| `TemplateBuilder.FailedDetailLeavesNothingToSave` | src/app/dashboard/productivity/template-builder/page.tsx:52-62 | On a fresh page a failed detail fetch shows "Failed to fetch template details" and a later save click only alerts |
| `TemplateBuilder.SavingUntilAnswered` | src/app/dashboard/productivity/template-builder/page.tsx:64-90 | While a save is outstanding, no sequence of events without its answer clears `isSaving`, so the Save button stays disabled until the answer |
| `TemplateBuilder.SentDetailOnlyWhenDefined` | src/app/dashboard/productivity/template-builder/page.tsx:46-74 | Each of `pdfUrl`, `preview_url`, `docusealData` is in the sent body exactly when the detail reply had the corresponding property |
| `TemplateBuilder.View` | src/app/dashboard/productivity/template-builder/page.tsx:94-179 | The error view shows exactly when the error is truthy; otherwise the builder shows exactly when the token is truthy and Save is enabled exactly when no save is outstanding and a draft is pending |
| `TemplateBuilder.Step` | src/app/dashboard/productivity/template-builder/page.tsx:17-92 | Only the save click sends a request or alerts, only the save answer navigates, and only the token reply changes the token |
| `TemplateBuilder.Run` | src/app/dashboard/productivity/template-builder/page.tsx:17-35 | Without a token reply among the events the token stays what it was |
| `TemplateLibrary.FromDocument` | src/app/dashboard/productivity/templates/page.tsx:40-43 | A loaded template keeps the document's stored fields; its id is the stored `id` field when there is one, else the document id |
| `TemplateLibrary.FromDocuments` | src/app/dashboard/productivity/templates/page.tsx:40-43 | One template per document, in the snapshot's order |
| `TemplateLibrary.Search` | src/app/dashboard/productivity/templates/page.tsx:96-98 | Every kept template is in the list and its lower-cased name includes the lower-cased query, and every matching template is kept (order and multiplicity in `SearchIsExact`) |
| `TemplateLibrary.Render` | src/app/dashboard/productivity/templates/page.tsx:100-200 | Spinner exactly while loading, error box with the message exactly when an error is set after loading, empty state only when nothing matched, with the search wording exactly when the query is non-empty |
| `Text.Lower` | src/app/dashboard/productivity/templates/page.tsx:97-97 | Lower-casing keeps the length, turns every ASCII capital into its own small letter, keeps every other character, and leaves no capital |
| `Text.LowerIdentifiesCase` | src/app/dashboard/productivity/templates/page.tsx:97-97 | Two strings lower-case to the same string exactly when they agree up to ASCII case, against an independent character-wise definition |
| `Text.Includes` | src/app/dashboard/productivity/templates/page.tsx:97-97 | The empty string is always included and nothing longer than the haystack is; the full characterisation is `IncludesIsOccurrence` |
| `Seqs.Filter` | src/app/dashboard/productivity/templates/page.tsx:89-98 | The filter keeps only elements of the input that satisfy the predicate and every element that does; order and multiplicity in `FilterIsSubsequence` and `FilterMultiplicity` |
| `Seqs.FilterIsSubsequence` | src/app/dashboard/productivity/templates/page.tsx:89-98 | A filter never reorders: its result is a subsequence of its input |
| `Seqs.FilterMultiplicity` | src/app/dashboard/productivity/templates/page.tsx:89-98 | A filter keeps each satisfying element as often as the input holds it and drops the rest |
| `JsValue.Stringified` | src/app/dashboard/productivity/template-builder/page.tsx:71-74 | The serialised object has exactly the properties whose value is not `undefined`, each with its value |

## Left out

- Firestore (`getDocs`) and every `fetch` call are inputs: the collection snapshot or a failure, and each HTTP reply as an `ok` flag with its parsed body, or a thrown error.
- The server routes behind `/api/docuseal`, `/api/templates/fetch`, `/api/templates/save` and `/api/templates/{id}/delete`, including any ownership check on the `user-id` header, are not part of this model.
- The `DocusealBuilder` widget, the `confirm` and `alert` dialogs and router navigation: the confirm answer is an input, alerts and navigation are outputs.
- The detail fetch URL built from the payload's `id` is not modelled; only the reply it gets is.
- `createdAt` is an optional integer time in milliseconds; Firestore `Timestamp`, `toDate`, `toLocaleDateString` and a `createdAt` that is present but not a timestamp (where `toDate` would throw) are not modelled.
- `toLowerCase` is modelled on ASCII letters only; Unicode case mapping is left out.
- Stored documents are taken to have the shape the page casts them to: a string `name` in particular. A document whose `name` is missing or not a string makes the search throw on every render, which breaks the page; the model does not represent it.
- `JSON.stringify` is modelled on the top level of the save body only: `undefined` values nested inside objects or arrays, and non-JSON values, are not modelled.
- JSON numbers are integers; floating point and `NaN` are left out. Reply bodies are JSON objects; a body that parses to a non-object is not modelled.
- React's asynchronous interleaving and the stale `templates` closure in the delete handler: events are applied one at a time to the current state.
- Logging (`console.error`) in the load, delete, detail-fetch and save handlers has no effect on state and is not modelled.
- The grid/list view toggle, the image `onError` fallback, the edit and send buttons and all markup.
- The send page (recipient list, email placeholders, dispatch), the dashboard home count, pricing, support, the layouts and the Next.js config are outside the modelled core.
