# Job navigator lead enrichment, modelled in Dafny

The job navigator keeps a list of job-search leads: people, with their title,
company and connection degree. Each lead is enriched in two stages:

1. a contact resolver (`callCiro`) looks up an email address and a phone number;
2. a text generator (`generateHierarchyAndEmail`) writes a short hierarchy
   description and an outreach email.

Enrichment happens in three places:

- `POST /api/enrichLead` enriches one lead;
- `GET /api/enrichLead` runs a batch of up to ten pending leads;
- `POST /api/uploadCSV` enriches every row of an uploaded table as it creates the row's lead.

`/api/sendEmail` drafts, stores and edits the outreach email. The dashboard
components read all this back:

- the email editor parses a stored template into a subject and a body;
- the lead table filters, sorts and counts leads;
- the notes panel keeps its list of notes;
- the organisation map groups a company's leads into a tree.

Modules:

- **Providers:**
  - `Ciro` and `Claude` model the two providers. Their network exchange is a
    function value: the response the provider gives to each request.
  - The stub each one uses when no API key is configured is a separate
    constructor of the provider type.
  - `JSON.parse` is a parser value. It is gated so that text which cannot start
    a JSON value always fails.
- **Records and the enrichment chain:**
  - `LeadStore` models the record store as a class holding a map from id to lead.
    Its fields are the creation order and the next id. It has the four queries
    the routes use.
  - `Pipeline` defines once the resolve-then-generate chain that the three
    routes inline. It keeps a log of the provider calls it makes.
- **Routes:** `EnrichLeadRoute`, `UploadCsvRoute` and `SendEmailRoute` are the
  route handlers. They are methods on the store that return the reply, and they
  return a ghost log of the provider calls made.
- **Components:** `EmailModal`, `LeadTable`, `NotePanel` and `MapView` model the
  component logic. `MapView`'s `createHierarchyData` is a method with loops,
  proved against the tree it specifies.
- **Shared pieces:**
  - `JsString` models the JavaScript string operations the code relies on:
    `split`, `join`, `trim`, `startsWith`, `replace`, `indexOf`, `includes` and `||`.
  - `EmailTemplate` is the `Subject: …` template format.
  - `Wrappers` and `Http` hold option, result and reply types.

## Model

| member | source | states |
|---|---|---|
| Ciro.Normalise | job-navigator/lib/ciro.ts:29-32 | `data.email \|\| null`: a kept field is the body's own non-empty value, and a non-empty field is always kept |
| Ciro.CallCiro | job-navigator/lib/ciro.ts:1-33 | stub answers the derived address and `+1-555-0100`; live succeeds exactly when the response arrived, is `ok` and is JSON, then normalised; a success never holds an empty email or phone |
| Ciro.StubNamesSpec | job-navigator/lib/ciro.ts:7-9 | stub first name is non-empty and has no space, last name is non-empty, `unknown`/`user` fallbacks, and first + space + last gives the name back |
| Ciro.StubEmailShape | job-navigator/lib/ciro.ts:12 | stub address is `local@domain.com`, the domain being the company lower-cased without whitespace, with no whitespace or upper-case letter in it |
| Claude.LiveReply | job-navigator/lib/claude.ts:51-66 | a live call fails only when the exchange throws; otherwise it is the first content block's text, or `""` when there is none |
| Claude.MockReply | job-navigator/lib/claude.ts:40-49 | without a key the reply is never empty and begins with `H` (the canned augmentation) or `M` (the `Mock response for:` echo) |
| Claude.ParseMarkers | job-navigator/lib/claude.ts:124-126 | both parsed sections are non-empty whatever the reply |
| Claude.ParseHierarchySection | job-navigator/lib/claude.ts:125 | hierarchy is the fallback without `Hierarchy:`, else the trimmed text after it, cut at the first later `Hierarchy:` or `Email:` |
| Claude.ParseTemplateSection | job-navigator/lib/claude.ts:126 | template is the fallback without `Email:`, else the trimmed text between the first and second `Email:` |
| Claude.ParsedSectionsHoldNoMarker | job-navigator/lib/claude.ts:125-126 | parsed hierarchy holds neither marker, parsed template holds no `Email:` |
| Claude.EmptyReplyDegrades | job-navigator/lib/claude.ts:124-126 | an empty reply yields both fallback texts |
| Claude.MissingTextIsNotFailure | job-navigator/lib/claude.ts:106-136 | a live body without text makes `generateHierarchyAndEmail` succeed with both fallbacks |
| Claude.GenerateHierarchyAndEmail | job-navigator/lib/claude.ts:106-136 | fails iff live and the call throws, with `Failed to generate hierarchy and email`; stub returns the fixed hierarchy and the lead's template; success is the marker parse of the reply, never empty |
| Claude.InferHierarchy | job-navigator/lib/claude.ts:69-104 | never fails: a throwing live call or a reply that does not parse gives the default, a reply that parses is returned as parsed, and any result other than the default is the JSON parse of the reply |
| Claude.StubInferHierarchyIsDefault | job-navigator/lib/claude.ts:69-104 | without a key `inferHierarchy` always returns the default |
| Claude.MockReplyIsNotJson | job-navigator/lib/claude.ts:44-48 | no canned reply can start a JSON value |
| Claude.EmailPromptContext | job-navigator/lib/claude.ts:157-165 | an empty context gives the plain prompt; a non-empty one inserts `Additional context: <context>` between the same two parts of it |
| Claude.GenerateEmail | job-navigator/lib/claude.ts:138-185 | fails only with `Failed to generate email`; the stub returns the fixed mock email; live, a throw fails and a body gives its JSON parse or the failure |
| Claude.EmptyReplyFailsGenerateEmail | job-navigator/lib/claude.ts:176-184 | an empty live reply fails `generateEmail` |
| EmailTemplate.Format | job-navigator/app/api/sendEmail/route.ts:45 | the template is `Subject: `, the subject, a blank line and the body, each at its fixed position |
| LeadStore.FromDraft | job-navigator/app/api/uploadCSV/route.ts:60-75 | the created lead has the given id and every field of the `data` |
| LeadStore.ApplyPatch | job-navigator/app/api/enrichLead/route.ts:41-51 | each given field takes its new value, the others and the profile stay, and an empty update changes nothing |
| LeadStore.FirstPendingSpec | job-navigator/app/api/enrichLead/route.ts:82-87 | at most `take` leads, each pending and stored under its id; short only when every pending lead is in it |
| LeadStore.FirstPendingDistinct | job-navigator/app/api/enrichLead/route.ts:82-87 | the batch lists no lead twice |
| LeadStore.Store.FindUnique | job-navigator/app/api/enrichLead/route.ts:14-16 | the lead under the id, or none exactly when there is no such lead |
| LeadStore.Store.Create | job-navigator/app/api/uploadCSV/route.ts:60-75 | a new lead under a fresh id, appended to the creation order, with nothing else changed |
| LeadStore.Store.Update | job-navigator/app/api/enrichLead/route.ts:41-51 | unknown id: none and no change; known id: only that lead changes, to its patched record, which is returned |
| LeadStore.Store.FindManyPending | job-navigator/app/api/enrichLead/route.ts:82-87 | the first `take` pending leads in creation order |
| Pipeline.Configured | job-navigator/app/api/enrichLead/route.ts:24-38 | the configured pair calls `callCiro` and `generateHierarchyAndEmail` |
| Pipeline.ConfiguredKeepsContent | job-navigator/lib/claude.ts:124-126 | the configured generator never succeeds with an empty hierarchy or template |
| Pipeline.Enrich | job-navigator/app/api/enrichLead/route.ts:22-51 | resolver called first; generator called only after resolver success, with the resolved email and phone; success iff both succeed |
| Pipeline.ResolverFailureSkipsGenerator | job-navigator/app/api/enrichLead/route.ts:22-64 | a failed resolver means no generator call, and the lead becomes `failed` with every other field unchanged |
| Pipeline.GeneratorFailureWritesOnlyStatus | job-navigator/app/api/enrichLead/route.ts:31-64 | a failed generator writes only `failed`; the resolved email and phone are dropped |
| Pipeline.SuccessWritesEverything | job-navigator/app/api/enrichLead/route.ts:40-51 | success writes email and phone (even null), hierarchy, template, `completed` and the stamp, profile unchanged |
| Pipeline.SettleKeepsCompletedContent | job-navigator/app/api/enrichLead/route.ts:40-64 | every write after the chain keeps "completed implies content" |
| Pipeline.NoSkip | job-navigator/app/api/enrichLead/route.ts:14-51 | a completed or failed lead reruns both stages exactly as a pending one, and a success overwrites |
| EnrichLeadRoute.Post | job-navigator/app/api/enrichLead/route.ts:6-73 | 400 and 404 without a write or a call; otherwise the chain's calls, the settled lead written under its id, reply the lead or 500 |
| EnrichLeadRoute.Get | job-navigator/app/api/enrichLead/route.ts:75-149 | with an id: the stored lead or null, no write; without: the first ten pending leads run in turn, reply `{count, leads}` of the completed ones |
| EnrichLeadRoute.EnrichOne | job-navigator/app/api/enrichLead/route.ts:92-126 | one loop turn: the store after it is the batch step's, the calls the chain's |
| EnrichLeadRoute.BatchResultsCompleted | job-navigator/app/api/enrichLead/route.ts:123-133 | every returned lead is `completed`, and `count` is at most the batch size |
| EnrichLeadRoute.BatchLeavesFailedPending | job-navigator/app/api/enrichLead/route.ts:124-126 | a batch lead whose chain fails is still pending with every field as it was |
| EnrichLeadRoute.GetBatchIsolation | job-navigator/app/api/enrichLead/route.ts:82-127 | at most ten leads; failures left pending and unchanged; leads outside the batch untouched; no lead added or removed |
| EnrichLeadRoute.BatchStarvation | job-navigator/app/api/enrichLead/route.ts:124-126 | as written, a batch that fails entirely changes nothing, and the next GET selects the same batch |
| EnrichLeadRoute.CorrectedBatchSettles | job-navigator/app/api/enrichLead/route.ts:57-64 | with failures marked `failed`, no selected lead stays pending |
| EnrichLeadRoute.CorrectedBatchMakesProgress | job-navigator/app/api/enrichLead/route.ts:82-87 | with the correction, the next GET selects none of this batch's leads |
| UploadCsvRoute.CellsSpec | job-navigator/app/api/uploadCSV/route.ts:34-39 | the k-th cell is the row's cell under the k-th alias |
| UploadCsvRoute.AliasSpec | job-navigator/app/api/uploadCSV/route.ts:35-39 | a field is the first non-empty aliased cell, and null iff every alias is missing or empty |
| UploadCsvRoute.RowNameSpec | job-navigator/app/api/uploadCSV/route.ts:34 | the name is never empty: `Name`, else `name`, else the trimmed first and last names, else `Unknown` |
| UploadCsvRoute.Post | job-navigator/app/api/uploadCSV/route.ts:9-110 | no file or parse errors: 400 and nothing created; otherwise one lead per row in row order under consecutive ids, and the summary of them |
| UploadCsvRoute.IngestRows | job-navigator/app/api/uploadCSV/route.ts:32-95 | the loop creates exactly the leads of `Ingested` and files each completed one in `leads` and each failed one in `failedLeads`; it makes exactly the rows' calls |
| UploadCsvRoute.Ingested | job-navigator/app/api/uploadCSV/route.ts:32-95 | one created lead per row |
| UploadCsvRoute.IngestedSpec | job-navigator/app/api/uploadCSV/route.ts:41-94 | the k-th lead has id start+k and the k-th row's profile; it is `completed` with both stages' output when its chain succeeded, else `failed` with no enrichment |
| UploadCsvRoute.RowCallsSpec | job-navigator/app/api/uploadCSV/route.ts:41-57 | the loop's calls are each row's chain calls, in row order |
| UploadCsvRoute.RowRunSettles | job-navigator/app/api/uploadCSV/route.ts:60-92 | no row is created `pending` |
| UploadCsvRoute.SummaryCounts | job-navigator/app/api/uploadCSV/route.ts:97-104 | `totalCount` = `enrichedCount` + `failedCount` = the number of rows, each count the length of its list |
| SendEmailRoute.SplitName | job-navigator/app/api/sendEmail/route.ts:30-32 | the first name has no space; with a space, first + space + last is the name; without, the whole name is the first name |
| SendEmailRoute.Post | job-navigator/app/api/sendEmail/route.ts:5-64 | 400/404 without a call or write; an existing template without `regenerate` comes back unchanged, with no call; otherwise one generator call; failure gives 500 with no write, success writes only the formatted template |
| SendEmailRoute.PutTemplate | job-navigator/app/api/sendEmail/route.ts:66-93 | 400 without an id; 500 for an unknown one; otherwise only the template changes, to the combined or plain content |
| SendEmailRoute.PatchRead | job-navigator/app/api/sendEmail/route.ts:95-117 | 400 without an id, else the stored lead or null; nothing is written |
| EmailModal.RoundTrip | job-navigator/components/EmailModal.tsx:29-35 | a template in the stored format (as written by the server and by `copyToClipboard` at line 129), or a copied email, parses back to exactly its subject and content |
| EmailModal.SecondLineDropped | job-navigator/components/EmailModal.tsx:30-32 | the subject line is read without its prefix and the second line is dropped, whatever it holds |
| EmailModal.NoSubjectLine | job-navigator/components/EmailModal.tsx:33-35 | a template without the prefix becomes the content and the subject stays |
| EmailModal.RegenerateNeverKeeps | job-navigator/components/EmailModal.tsx:45-48 | the editor's request always regenerates, never hitting the server's skip rule |
| EmailModal.RegeneratedShowsStored | job-navigator/components/EmailModal.tsx:53-65 | after a regeneration the editor shows the parse of the template the server stored |
| EmailModal.SavedTemplateReloads | job-navigator/components/EmailModal.tsx:26-36 | a template saved by PUT with subject and content reloads as that subject and content |
| LeadTable.FilteredInOrder | job-navigator/components/LeadTable.tsx:58-62 | the filtered rows are a subsequence of the table |
| LeadTable.FilteredCounts | job-navigator/components/LeadTable.tsx:58-62 | a lead that passes is kept as often as it occurs; every other lead is dropped |
| LeadTable.FilterKinds | job-navigator/components/LeadTable.tsx:59-61 | `all` keeps the table as it is, `none` keeps exactly the empty degrees, any other value keeps exact matches |
| LeadTable.Rank | job-navigator/components/LeadTable.tsx:68-74 | the rank lies in 1..4 |
| LeadTable.SortByRankPermutes | job-navigator/components/LeadTable.tsx:65 | the connection sort is a permutation |
| LeadTable.SortByRankOrders | job-navigator/components/LeadTable.tsx:66-75 | the connection sort orders 1st, 2nd, 3rd, then the rest |
| LeadTable.SortByRankStable | job-navigator/components/LeadTable.tsx:65-75 | leads of equal rank keep their relative order |
| LeadTable.SortedLeadsSpec | job-navigator/components/LeadTable.tsx:65-82 | the rows shown are a permutation of the filtered ones, in their order by default and rank-sorted by connection |
| LeadTable.StatsSpec | job-navigator/components/LeadTable.tsx:85-91 | the four counts never exceed the total, and equal it iff every degree is 1st, 2nd, 3rd or empty |
| LeadTable.ReplaceById | job-navigator/components/LeadTable.tsx:104-106 | same length; the rows with the id become the reply's lead, the others stay |
| LeadTable.ReplaceKeepsMirror | job-navigator/components/LeadTable.tsx:93-106 | a table that shows the store still shows it after a single enrich writes and returns one lead |
| LeadTable.EnrichAllGuard | job-navigator/components/LeadTable.tsx:119-124 | no request goes out exactly when the pending count is zero |
| NotePanel.BlankSpec | job-navigator/components/NotePanel.tsx:45 | a draft is not sent exactly when all of it is whitespace |
| NotePanel.AddNoteSpec | job-navigator/components/NotePanel.tsx:44-70 | success puts the new note at index 0 with the old notes after it in order, and clears and closes the draft; a blank draft or a failure changes nothing |
| NotePanel.ReplaceNoteSpec | job-navigator/components/NotePanel.tsx:83 | same length; the notes with the id become the updated note, the others stay in place |
| NotePanel.ReplaceNoteIdempotent | job-navigator/components/NotePanel.tsx:83 | applying the same update twice is applying it once |
| NotePanel.RemoveNoteSpec | job-navigator/components/NotePanel.tsx:107 | no note with the id remains, and every other note remains as often as it was there |
| NotePanel.RemoveNoteSplits | job-navigator/components/NotePanel.tsx:107 | removal works piece by piece, so the remaining notes keep their order |
| NotePanel.RemoveNoteKeepsOthers | job-navigator/components/NotePanel.tsx:107 | removing an id no note has changes nothing |
| NotePanel.EditedMarker | job-navigator/components/NotePanel.tsx:213 | the marker is shown exactly when `updatedAt` differs from `createdAt` |
| MapView.IndexIn | job-navigator/components/MapView.tsx:134 | `indexOf`: -1 iff absent, else the first position holding the value |
| MapView.LeafLevelSpec | job-navigator/components/MapView.tsx:100-134 | the leaf level is in [1, 6]; a missing seniority gives 6, an unrecognised one 1, the k-th level k+2 |
| MapView.CreateHierarchyData | job-navigator/components/MapView.tsx:99-143 | the tree built is exactly `Tree(company, allLeads)` |
| MapView.GroupByDepartment | job-navigator/components/MapView.tsx:103-108 | keys in first-seen order, each holding its department's leads in order |
| MapView.BuildDepartmentNodes | job-navigator/components/MapView.tsx:120-140 | one department node per key, in key order |
| MapView.BuildLeaves | job-navigator/components/MapView.tsx:130-137 | one leaf per member, in order |
| MapView.DepartmentsSpec | job-navigator/components/MapView.tsx:103-108 | each department listed once, exactly when some lead has it (a missing one counts as `Other`) |
| MapView.MembersSpec | job-navigator/components/MapView.tsx:104-107 | a department holds only its own leads, each as often as it occurs |
| MapView.TreeSpec | job-navigator/components/MapView.tsx:111-140 | root is the company at level 0; one level-1 node per distinct department; as many leaves as leads; every lead's department has a node |
| MapView.TreeColoured | job-navigator/components/MapView.tsx:145-148 | the clamped index is in bounds for every level the tree holds; the root, department nodes and default-seniority leaves get colours 0, 1 and 5 |
| MapView.StoreLeadsOneDepartment | job-navigator/components/MapView.tsx:104-108 | stored leads have no department field, so they all fall under one `Other` node |
| MapView.StoreLeaf | job-navigator/components/MapView.tsx:132-135 | a stored lead's leaf is `undefined undefined`, under `Other`, at level 6 |

## Left out

- HTTP plumbing, `fetch`, `NextResponse` and request decoding: requests are parameters, and replies are `Reply` values carrying a status and the error message.
- The record store's library is modelled as a map plus the four queries. The batch `findMany` has no `orderBy`; the model takes creation order.
- The table parser (papaparse): the upload is the parser's rows plus its error count.
- `JSON.parse` is a parser value. Only its failure on text that cannot start a JSON value is modelled.
- The clock (`new Date()`) is a timestamp parameter. `formatDate`'s locale formatting is not modelled.
- EnrichLeadRoute.Get and UploadCsvRoute.Post take one `now` per request and stamp every lead of the request with it; the source calls `new Date()` once per lead (enrichLead/route.ts:119, uploadCSV/route.ts:73), so its stamps differ from lead to lead and increase through the batch.
- The API keys in the environment decide between stub and live provider. The model makes that choice a constructor of the provider value.
- Providers are deterministic per request. A provider that answers the same request differently is not modelled.
- Concurrency: every `await` chain in the source is sequential.
- The generator's provider receives a `Prompt` value that names what the prompt is built from. `PromptText` spells out the text of each prompt. Besides `MockReply` and `EmailPromptContext`, the model does not reason about that text.
- `enrichLead`, the second export of `callCiro`, is the same function and needs no member of its own.
- `toLowerCase` is modelled over ASCII letters only. `\s` is the JavaScript whitespace set.
- The name and company sorts of the lead table use `localeCompare`, which depends on the locale, and are not modelled. The connection sort is modelled as a stable sort by rank, as `Array.prototype.sort` is stable.
- LeadTable.Rank: keys such as `constructor`, which the object literal inherits, are not modelled; every degree other than 1st, 2nd and 3rd ranks 4.
- MapView.GroupByDepartment: department names that are keys the object literal inherits (`constructor`, `toString`, `__proto__`) are treated as new keys; in the source `departments[dept]` finds the inherited value, which is truthy, and the `push` on it throws. Stored leads carry no department, so this cannot arise from the dashboard.
- MapView.GroupByDepartment: `Object.entries` lists department keys that look like array indices (`"0"`, `"12"`) first, in numeric order. The model uses insertion order for every key.
- MapView.LeafOf: a JSON `null` name part would print `null`, not `undefined`. The model has only absent fields.
- MapView.CreateHierarchyData: the root's name is taken as a string. A lead without a company (`undefined`) is not modelled. The d3 layout and rendering are not modelled.
- SendEmailRoute.PutTemplate: a `content` of JSON `null`, which writes `null`, is not told apart from an absent one, which keeps the stored template. Both are `None`, and `None` keeps.
- SendEmailRoute.Post: the regenerate reply carries `email` and `lead`, never `emailTemplate`. `EmailModal.Regenerated` therefore takes the `email` branch for every successful regeneration.
- The notes and leads routes are thin wrappers around store queries. The notes panel receives their replies as `Some(note)` or `None`.
- The email editor's save and mark-as-sent handlers only forward to PUT and PATCH, which are modelled as routes. The confirmation dialog before a delete is folded into the `deleted` flag.
- JSX rendering, toasts, React hooks and the upload form are not modelled.

## Findings

| source | as written | input that shows it | evidently intended | confidence | as-written member | corrected member |
|---|---|---|---|---|---|---|
| job-navigator/app/api/enrichLead/route.ts:124-126 | a lead whose chain fails in the GET batch is only logged and stays `pending` | ten or more pending leads whose resolver always fails (for example, no contact is found): every GET selects the same ten, and the pending leads behind them are never reached | mark the lead `failed`, as POST does at lines 57-64, so that the next batch moves on | medium, not executed | EnrichLeadRoute.BatchStarvation | EnrichLeadRoute.CorrectedBatchMakesProgress |
