# API tester: request form, dispatch and response viewer

This project models the core of a small browser "API tester". The user types
a method, a URL, a headers text and a body text into a form. Submitting
validates them, normalises the URL and sends one HTTP request. The outcome
comes back as a response envelope, and the viewer shows it raw, as a table or
as cards. The form can also export its cells as a JSON file and import such a
file again.

Modules:

- `JsonValues` (`json_values.dfy`): JSON values as the application sees
  them. It also holds JavaScript truthiness, `a || b`, `typeof v === 'object'`
  and property reads. The JSON library enters as a `JsonLib` value whose
  function fields stand for `JSON.parse`, `JSON.stringify` (plain and
  pretty-printed) and `String(v)`.
- `Url` (`url.dfy`): `String.prototype.trim` over the ECMAScript whitespace
  set, the case-insensitive scheme test `/^https?:\/\//i`, and URL
  normalisation.
- `ApiClient` (`api_client.dfy`): `sendApiRequest`. The HTTP transport
  (axios) is a `Network` object. It has a fixed answer to each request (a
  completed exchange or a thrown error) and a ghost log of the requests sent
  to it. The adapter turns either answer into the envelope.
- `RequestForm` (`request_form.dfy`): the submit handler's validation as a
  pure plan (`PlanSubmit`), export and import of the request document, and a
  `FormState` class. Its fields are the component's state cells plus the
  application-wide loading flag, and its methods are the handlers that update
  them. A ghost log records every value given to the loading flag.
- `ResponseViewer` (`response_viewer.dfy`): the views the selector offers,
  and the contents of the raw, table and cards views.

Behaviour of the code that is easy to misread:

- The method, URL and body cells hold JSON values, not strings. An import
  stores `json.url || ''` and the like, which can be any truthy value. When
  the URL cell holds a non-string, `url.trim()` throws in the submit handler.
  The handler's promise then rejects with the loading flag still raised, and
  nothing is dispatched (`PlanSubmit` returns `Throws`).
- Export then import does not give back the headers text. Export stores the
  headers as a JSON string, and import pretty-prints whatever it finds there.
  The cell therefore receives a quoted JSON string literal, proved in
  `ExportThenImportChangesHeaders`. Empty headers are falsy and come back as
  the pretty-printed `{}`.
- Any headers text that parses is accepted, not only a JSON object.
- For GET and DELETE the body is not parsed, and the request carries `{}`
  as its data.
- The selector's test admits arrays holding `null` and nested arrays, and
  the empty array. The table view of an empty array throws, because the
  header is read from `data[0]`. A `null` among the first ten elements (table)
  or the first twelve (cards) also throws. No component catches the error,
  so nothing of the viewer is shown; the model's `Crashed` result stands for
  this.
- Table cells are not looked up by the header's keys. Each row shows the
  first five values of its own element, in that element's own order.
- The Export button always writes the initial cells (see Findings).

## Model

| member | source | states |
|---|---|---|
| Url.Trim | src/components/RequestForm.tsx:24 | the trimmed URL has no whitespace at either end |
| Url.TrimCutsOnlyWhitespace | src/components/RequestForm.tsx:24 | the trimmed URL is a slice of the typed text, with only whitespace removed before and after it |
| Url.TrimOfTrimmed | src/components/RequestForm.tsx:24 | trimming text with no outer whitespace leaves it unchanged |
| Url.NormalizeUrl | src/components/RequestForm.tsx:24-27 | the requested URL always passes the scheme test; a trimmed URL that passes it is used as is, and any other gets `https://` prepended |
| Url.NormalizeUrlIdempotent | src/components/RequestForm.tsx:24-27 | normalising a normalised URL changes nothing |
| Url.NormalizeBareHost | src/components/RequestForm.tsx:25-27 | a bare host `example.com` is requested as `https://example.com` |
| Url.NormalizeUpperCaseScheme | src/components/RequestForm.tsx:25 | the scheme test ignores case: `HTTPS://X` is kept as typed |
| ApiClient.ToEnvelope | src/utils/apiClient.ts:9-29 | success iff the transport completed; headers present iff success; on success data, status and headers are passed through; on failure the status is the nested non-zero status or 500, and the data is the nested truthy body or the error message |
| ApiClient.Network.constructor | src/utils/apiClient.ts:1 | a new transport answers with the given function and has sent nothing |
| ApiClient.Network.Send | src/utils/apiClient.ts:10-15 | one transport call appends its request to the log and yields the answer to that request |
| ApiClient.SendApiRequest | src/utils/apiClient.ts:3-30 | exactly one request, made of the four arguments, is appended to the transport's log, and the envelope is the adaptation of the answer to that request |
| ApiClient.NetworkErrorEnvelope | src/utils/apiClient.ts:23-28 | an error without a response gives a failed envelope with status 500 whose data is the message |
| ApiClient.FalsyErrorBodyReplaced | src/utils/apiClient.ts:24-28 | a falsy error body is replaced by the message, and a non-zero error status is kept |
| RequestForm.PlanSubmit | src/components/RequestForm.tsx:24-50 | a rejection carries the headers message or the body message |
| RequestForm.ParseHeaders | src/components/RequestForm.tsx:31 | empty headers text means `{}`; any other text is parsed, and the result is None exactly when the parse fails |
| RequestForm.ParseBody | src/components/RequestForm.tsx:41 | a falsy body means `{}`; a non-empty string body is parsed as it is; any other truthy body is parsed from its `String` coercion |
| RequestForm.PlanSubmitCases | src/components/RequestForm.tsx:24-50 | the submit throws iff the URL cell holds no string; the headers error iff the headers text is non-empty and does not parse; the body error iff headers are fine, the method is POST or PUT and a truthy body does not parse; otherwise a request is dispatched with the method, the normalised URL, the parsed headers (`{}` when empty), and the parsed body for POST/PUT or `{}` otherwise |
| RequestForm.HeadersErrorTakesPrecedence | src/components/RequestForm.tsx:29-36 | headers that do not parse are reported whatever the body holds |
| RequestForm.BodyIgnoredUnlessPostOrPut | src/components/RequestForm.tsx:38-47 | for methods other than POST and PUT the body never changes the outcome and never causes the body error |
| RequestForm.ExportDocument | src/components/RequestForm.tsx:54-55 | the exported document has exactly the members method, url, headers and body, in that order, holding the raw cells with the headers as a string |
| RequestForm.ExportFile | src/components/RequestForm.tsx:54-60 | the download is named `api-request.json`, has type `application/json`, and holds the pretty-printed export document |
| RequestForm.ImportText | src/components/RequestForm.tsx:68-77 | nothing is imported iff the text does not parse or is `null`; a truthy method, url or body is taken as is and a falsy or missing one falls back to GET, '' and ''; the headers cell gets the pretty-printed headers value, or the pretty-printed `{}` |
| RequestForm.ExportThenImport | src/components/RequestForm.tsx:54-77 | importing an exported file restores the string method, URL and body cells; the headers cell becomes the pretty-printed JSON string of the old headers text, or the pretty-printed `{}` when that text was empty |
| RequestForm.StaleExportLosesEdits | src/components/RequestForm.tsx:82-86 | for any cells other than the initial ones, the document the export event writes differs from the export of those cells |
| RequestForm.ExportThenImportChangesHeaders | src/components/RequestForm.tsx:55-73 | for headers text not starting with a quote, such as the initial `{}`, the round trip changes the headers cell |
| RequestForm.FormState.constructor | src/components/RequestForm.tsx:12-17 | a new form holds GET, an empty URL, headers `{}` and an empty body, with no response, no error and loading off; the export listener captures these initial cells |
| RequestForm.FormState.SetAppLoading | src/components/RequestForm.tsx:22 | the loading flag takes the given value, which is appended to the loading history |
| RequestForm.FormState.Submit | src/components/RequestForm.tsx:19-52 | the cells are unchanged; the handler throws iff the plan is `Throws`; the error and response are cleared and loading is raised first; a rejection stores its message and lowers loading; a dispatch appends exactly the planned request to the transport's log, stores the envelope of the answer to it and lowers loading; otherwise nothing is sent; loading is off unless the handler threw |
| RequestForm.FormState.Import | src/components/RequestForm.tsx:63-80 | with no file nothing happens; a file that does not import alerts and leaves the cells alone; otherwise the four cells become what `ImportText` gives |
| RequestForm.FormState.Export | src/components/RequestForm.tsx:54-60 | exporting writes the file for the cells the form holds now |
| RequestForm.FormState.TriggerExport | src/components/RequestForm.tsx:82-86 | the export event writes the file for the cells captured when the form mounted |
| ResponseViewer.LegalViews | src/components/ResponseViewer.tsx:9-25 | raw is always offered, and table and cards are offered iff the payload is an array whose elements all have type `object` |
| ResponseViewer.ArrayOfObjectsIsWeakerThanRecords | src/components/ResponseViewer.tsx:9 | every array of records passes the selector's test, and so do arrays holding `null` or nested arrays, and the empty array |
| ResponseViewer.LegalViewsExamples | src/components/ResponseViewer.tsx:9-15 | an array of objects admits all three views; an array of numbers and a bare object admit only raw |
| ResponseViewer.OwnEntries | src/components/ResponseViewer.tsx:70 | the entries of an object are its members in order; those of an array are its index strings paired with its elements |
| ResponseViewer.RowCells | src/components/ResponseViewer.tsx:49-53 | a row shows the display strings of the first five values of its element, in its own order |
| ResponseViewer.Rows | src/components/ResponseViewer.tsx:47-55 | rows exist iff no element is `null`, and then there is one row per element, each showing that element's values |
| ResponseViewer.TableOf | src/components/ResponseViewer.tsx:35-57 | the table renders iff the array is non-empty and none of its first ten elements is `null`; the header is the first five keys of `data[0]`; there are min(10, n) rows, each showing its own element |
| ResponseViewer.CardFor | src/components/ResponseViewer.tsx:63-77 | card number i is titled `Item i+1` and lists the first six entries of its element, values as JSON text |
| ResponseViewer.CardsOf | src/components/ResponseViewer.tsx:61-82 | the cards render iff none of the first twelve elements is `null`; there are min(12, n) cards, card i showing element i |
| ResponseViewer.Render | src/components/ResponseViewer.tsx:5-83 | the render crashes iff the table or cards view is selected and its contents throw; otherwise the selector is shown iff the payload is an array of objects, the status is the envelope's, raw shows the whole payload, and table and cards show their contents |
| ResponseViewer.InitialViewShowsWholePayload | src/components/ResponseViewer.tsx:6-32 | a freshly shown response renders, raw and whole |
| ResponseViewer.EmptyArrayViews | src/components/ResponseViewer.tsx:9-63 | the empty array is offered all views; its cards view is empty, and its table view throws, crashing the viewer |
| ResponseViewer.CellsFollowRowOrder | src/components/ResponseViewer.tsx:39-53 | for two records with the same keys in different orders, the second row's cells follow its own order, not the header's |

## Left out

- Rendering: JSX, styles, the raw view's pretty printer and the visual truncation of long cells are presentation. The raw view is the payload value itself.
- The JSON library: `JSON.parse`, `JSON.stringify` and `String(v)` are parameters, not implementations. Their formats, number printing, `-0` and `NaN` are not modelled.
- JavaScript property order: the model keeps an object's members in the order given. It does not reorder integer-like keys first.
- Duplicate keys: a property read takes the last member with the key, as `JSON.parse` does. `OwnEntries` lists every member, while `Object.entries` on a parsed object lists each key once.
- The transport: axios itself, the network, timeouts and header normalisation are reduced to the `Network` object's fixed answer function. The `await` is not modelled. The model has no interleaving of two submits, and it treats the transport as total: a call that never returns is not modelled.
- Files: `FileReader`, `Blob`, object URLs and the download link are left out. Export is the file's name, type and text; import takes the file's text, or nothing when no file was chosen.
- The window event itself: the header bar's Export button (src/components/HeaderBar.tsx:21) dispatches `trigger-export` (src/App.tsx:11-13), and the form's listener handles it. The model has `FormState.TriggerExport` for the listener's effect and leaves out the event dispatch. The application shell, header bar and sidebar are not part of this model.
- RequestForm.FormState.Submit: React state updates are modelled as taking effect at once, and the handler reads the cells as they were when it started. React's batching and re-rendering are not modelled.
- ResponseViewer.Render: the selected view is taken as a parameter, and the model requires that a view other than raw is only selected for a payload the selector accepts. The selector widget itself is not modelled.

## Findings

| source | as written | input that shows it | evidently intended | confidence | as-written member | corrected member |
|---|---|---|---|---|---|---|
| src/components/RequestForm.tsx:82-86 | the `trigger-export` listener is added once, with no dependencies, so it calls the first render's `handleExport`, which closes over the initial cells; the Export button reaches the form only through this event | type `https://example.com` into the URL field, then press Export: the file holds `"url": ""` | the file holds the cells the form shows when Export is pressed | high; not executed | RequestForm.FormState.TriggerExport, with RequestForm.StaleExportLosesEdits | RequestForm.FormState.Export, with RequestForm.ExportThenImport |
