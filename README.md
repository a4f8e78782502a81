# Lead manager, modelled in Dafny

A model of the lead-management application: an Express/Mongoose service
that stores sales leads (client name, contact details, project type,
requirement, notes and a pipeline status), and a React dashboard that lists,
filters, sorts, edits and counts them.

The model covers the following:

- **`LeadSchema`** (`lead_schema.dfy`): the lead record's field rules as
  `Cast` (trimming and lower-casing setters) followed by `Validate` (one
  message per failing path). It includes the pre-save name title-casing,
  both as `TitleCase` (split, map, join) and as a character-wise reference
  definition, and the document whose pre-save hook rewrites the name only
  when the name was modified.
- **`LeadStoreBasics` and `LeadController`** (`lead_store.dfy`): the
  collection as a class with a map from id to lead, the insertion order
  and a clock for the timestamps. There is one method per route handler:
  create, list, get, update, delete, status update and statistics. Each
  returns a response value (code, success flag, message, payload).
- **`Dashboard`** (`dashboard.dfy`): the browser's own status/search
  filter. When neither the name nor the email matches, it reaches the
  non-existent `companyName` field and throws.
- **`LeadTable`** (`lead_table.dfy`): the column comparator and the sorted
  copy, the header toggle, the status badge colour and the shortened
  requirement cell.
- **`LeadForm`** (`lead_form.dfy`): the form record, the change handler,
  the client-side validation and the submit gate.
- **`StatsCard`** (`stats_card.dfy`): the seven displayed counts.
- **`Cors`** (`cors.dfy`): the allowed-origin list parsed from
  `CORS_ORIGIN` and the origin decision.
- **`ErrorHandler`** (`error_handler.dfy`): the ordered classification of
  an error into a failure response.
- **`Scenarios`** (`scenarios.dfy`): request sequences and concrete inputs
  that pin the behaviour down.
- **Support modules**: `Text` (JavaScript whitespace trimming, ASCII case
  folding, substring search, `split`/`join`, string order), `Sorting`
  (a sort by a total preorder, proved sorted and a permutation) and
  `Wrappers` (`Option`, `Result`).

The server's and the browser's rules are modelled separately and are not
reconciled.

A few behaviours of the code are easy to misread; the model follows the
code:

- `createLead` catches every failure, a schema validation failure
  included, and answers 500 "Failed to create lead". No create answers 400.
- The name is title-cased when a lead is created. `updateLead` uses
  `findByIdAndUpdate`, which does not run the pre-save hook, so an updated
  name is trimmed but keeps its case.
- `updateLead` runs with validators switched off. An update can therefore
  store an empty name, an out-of-range status or project type, and any
  length.
- `companyName` is not a field of the record. The model states what the
  code does with it:
  - the server's `sort=company` compares every lead as equal;
  - the browser's search throws for a lead whose name and email both miss.
- The duplicate-key branch of the error handler is modelled. The schema
  itself never raises that error, because the email index is not unique.

## Model

| member | source | states |
|---|---|---|
| LeadSchema.Cast | backend/models/Lead.js:9-64 | every text field is trimmed and the email is lower-cased; the two enum fields are left as given |
| LeadSchema.FullNameError | backend/models/Lead.js:9-15 | the name passes exactly when its length is between 2 and 100; an empty name reports "Client name is required" |
| LeadSchema.PhoneError | backend/models/Lead.js:16-21 | the phone passes exactly when it is empty or matches: optional `+`, optional `(`, 1-4 digits, optional `)`, then only `-`, whitespace, `.`, `/` and digits |
| LeadSchema.EmailError | backend/models/Lead.js:22-31 | the email passes exactly when it is empty or matches the word-chain `@` domain pattern with a final 2-3 character label group |
| LeadSchema.ProjectTypeError | backend/models/Lead.js:37-44 | the project type passes exactly when it is App, Website or IOT |
| LeadSchema.RequirementError | backend/models/Lead.js:45-50 | the requirement passes exactly when it has 1 to 2000 characters |
| LeadSchema.NotesError | backend/models/Lead.js:51-56 | the notes pass exactly when they have at most 2000 characters |
| LeadSchema.StatusError | backend/models/Lead.js:57-64 | the status passes exactly when it is one of the seven statuses |
| LeadSchema.PhoneMatch | backend/models/Lead.js:19 | definition: optional `+`, optional `(`, one to four digits, optional `)`, then only `-`, whitespace, `.`, `/` and digits |
| LeadSchema.EmailMatch | backend/models/Lead.js:27 | definition: a word chain, `@`, and a domain that is a word chain followed by a final group of two or three word characters |
| LeadSchema.Conforms | backend/models/Lead.js:9-64 | definition: the conjunction of the seven field rules on a cast record |
| LeadSchema.Validate | backend/models/Lead.js:8-65 | the message list is empty exactly when every field rule holds, and it holds at most seven messages, at most one per validated path |
| LeadSchema.ValidateReportsEachPath | backend/models/Lead.js:8-65 | every failing path's message is among the reported ones |
| LeadSchema.ValidateDependsOnNameLength | backend/models/Lead.js:9-15 | the name's validation depends on its length only, not on its characters |
| LeadSchema.TitleCase | backend/models/Lead.js:90-93 | definition: split on `' '`, upper-case each word's first character and lower-case the rest, rejoin with `' '` |
| LeadSchema.TitleCaseCharwise | backend/models/Lead.js:90-93 | split on `' '`, capitalise each word and rejoin equals the character-wise rule: upper-case after a space or at the start, lower-case elsewhere |
| LeadSchema.TitleCasePreservesLength | backend/models/Lead.js:90-93 | title-casing keeps the length |
| LeadSchema.TitleCaseAt | backend/models/Lead.js:90-93 | each character is upper-cased at a word start and lower-cased elsewhere, and spaces stay exactly where they were |
| LeadSchema.TitleCaseIdempotent | backend/models/Lead.js:90-93 | title-casing a title-cased name changes nothing |
| LeadSchema.LeadDocument.New | backend/models/Lead.js:87-89 | a new document counts its name as modified |
| LeadSchema.LeadDocument.Loaded | backend/models/Lead.js:87-89 | a loaded, unchanged document does not count its name as modified |
| LeadSchema.LeadDocument.PreSave | backend/models/Lead.js:87-95 | the name is title-cased when it was modified; otherwise the document is unchanged |
| LeadSchema.SaveNew | backend/models/Lead.js:87-95 | saving a new document stores its fields with the name title-cased and nothing else changed |
| LeadStoreBasics.CreateFields | backend/controllers/leadController.js:22-31 | definition: each body field `|| ''`, the project type `|| 'App'`, the status `|| 'New'` |
| LeadStoreBasics.CreateFieldsDefaults | backend/controllers/leadController.js:22-31 | for each of the eight fields: a missing or empty value becomes `''`, project type `App` or status `New`; a given value is kept (for the six text fields even `''`, which equals the default); the stored enums are never empty |
| LeadStoreBasics.StoredOnCreate | backend/controllers/leadController.js:22-31 | definition: the defaulted record after the setters, with the pre-save hook's title-cased name |
| LeadStoreBasics.Overwrite | backend/controllers/leadController.js:177-193 | for each of the eight fields: a value present in the body replaces the stored one, after the setter's trimming (and lower-casing for the email; the two enums verbatim); an absent one keeps the stored value |
| LeadStoreBasics.OverwriteBypassesValidators | backend/controllers/leadController.js:177-193 | an update that sets a status or project type outside its enumeration, or a name shorter than 2 characters once trimmed, stores a record that fails validation |
| LeadStoreBasics.SortKeyOf | backend/controllers/leadController.js:78-91 | `oldest`, `name` and `company` select their orders; anything else selects newest first |
| LeadStoreBasics.SortLe | backend/controllers/leadController.js:78-93 | definition: ascending creation time, ascending name, every pair equal (`companyName`), descending creation time |
| LeadStoreBasics.SortLeTotal | backend/controllers/leadController.js:78-93 | each of the four orders is total, so the list can be sorted by it |
| LeadStoreBasics.SearchHit | backend/controllers/leadController.js:67-75 | definition: the lower-cased search is a substring of one of the five lower-cased searched fields |
| LeadStoreBasics.Listed | backend/controllers/leadController.js:56-75 | definition: the status is unset, empty, `All` or equal to the lead's; the search is unset, empty or a hit |
| LeadStoreBasics.Filter | backend/controllers/leadController.js:59-75 | a lead is kept exactly when it meets the query; nothing is added |
| LeadStoreBasics.ValuesOf | backend/controllers/leadController.js:324 | the grouped field of each lead, position by position |
| LeadStoreBasics.CountFor | frontend/src/components/StatsCard.js:15-22 | the count of the first group with that id, and 0 when none has it |
| LeadStoreBasics.AddOne | backend/controllers/leadController.js:325 | counting one more value adds it to the ids and adds 1 to the counts' sum |
| LeadStoreBasics.AddOneCounts | backend/controllers/leadController.js:325 | counting one value raises its count by 1 and leaves every other count alone |
| LeadStoreBasics.GroupCounts | backend/controllers/leadController.js:321-338 | definition: `$group` with `$sum: 1`, one entry per value in order of first appearance |
| LeadStoreBasics.GroupCountsShape | backend/controllers/leadController.js:321-338 | one group per distinct value present, ids distinct, each count at least 1, counts summing to the number of leads |
| LeadStoreBasics.GroupCountsDistinct | backend/controllers/leadController.js:321-338 | the grouping's ids are distinct, each count is at least 1, and the counts add up to the number of leads |
| LeadStoreBasics.GroupCountsIds | backend/controllers/leadController.js:321-338 | a value has a group exactly when some lead holds it |
| LeadStoreBasics.GroupCountsCount | backend/controllers/leadController.js:321-338 | each group's count is the number of leads holding that value |
| LeadStoreBasics.ComputeStats | backend/controllers/leadController.js:321-348 | definition: the document count and the two groupings of the collection |
| LeadStoreBasics.ComputeStatsCounts | backend/controllers/leadController.js:321-348 | the statistics report the total and, per status and per project type, the number of leads holding it |
| LeadStoreBasics.Without | backend/controllers/leadController.js:234 | removing an id keeps every other id and keeps the list free of repeats |
| LeadStoreBasics.DistinctCardinality | backend/controllers/leadController.js:340 | a repeat-free list of the stored ids is as long as the collection, so `countDocuments` is the list length |
| LeadController.InsertKeepsInvariant | backend/controllers/leadController.js:22-31 | inserting a fresh, well-formed lead stamped with the clock keeps the collection invariant |
| LeadController.LeadStore.Docs | backend/controllers/leadController.js:93 | the stored leads in insertion order, each exactly once |
| LeadController.LeadStore.Insert | backend/controllers/leadController.js:22-31 | the lead is added under its id, appended to the order, and the clock advances |
| LeadController.LeadStore.Create | backend/controllers/leadController.js:8-47 | 201 with the defaulted, cast, title-cased record stamped with the clock exactly when the record conforms; otherwise 500 "Failed to create lead" with the messages, and the collection unchanged |
| LeadController.LeadStore.GetAll | backend/controllers/leadController.js:54-108 | 200; the list is the collection filtered by the query and sorted by the selected order: the same leads with the same multiplicities as the filtered collection, exactly the stored leads meeting the status and search rules, sorted, and `count` is its length and at most the collection's size |
| LeadController.LeadStore.GetById | backend/controllers/leadController.js:115-147 | a malformed id gives 400 "Invalid lead ID format", an unknown id 404 "Lead not found", and a stored id 200 with its lead |
| LeadController.LeadStore.Update | backend/controllers/leadController.js:154-216 | 400 for a malformed id and 404 for an unknown one, with nothing changed; otherwise 200 with the body overwritten onto that lead alone, the timestamp advanced and the collection invariant kept |
| LeadController.LeadStore.Delete | backend/controllers/leadController.js:223-257 | 400 for a malformed id and 404 for an unknown one, with nothing changed; otherwise 200 with an empty object and only that lead removed |
| LeadController.LeadStore.UpdateStatus | backend/controllers/leadController.js:264-311 | a missing or unknown status gives 400 with the list of statuses before any id check; then 400 for a malformed id and 404 for an unknown one; otherwise only that lead's status and update time change |
| LeadController.LeadStore.GetStats | backend/controllers/leadController.js:318-358 | 200 with the statistics of the collection: the total is the number of leads; each grouping has one entry per distinct value present, each entry counts the leads holding its value, and the counts sum to the total |
| LeadController.GroupsPresent | backend/controllers/leadController.js:321-338 | a value has a group exactly when some stored lead holds it |
| LeadController.QueryOf | backend/controllers/leadController.js:56-75 | the query keeps the status unless it is unset, empty or `All`, the search unless it is unset or empty, and matches a lead exactly when the status and search rules hold |
| LeadController.BuildQuery | backend/controllers/leadController.js:56-75 | the query built step by step is that query |
| Dashboard.KeepStatus | frontend/src/pages/Dashboard.js:44-46 | an element is kept exactly when it is in the list with that status |
| Dashboard.KeepStatusSubsequence | frontend/src/pages/Dashboard.js:44-46 | the status filter keeps the list's order |
| Dashboard.SubsequenceRefl | frontend/src/pages/Dashboard.js:41 | the copy of the list is a subsequence of it |
| Dashboard.KeepSearch | frontend/src/pages/Dashboard.js:49-57 | the search completes exactly when every lead's lower-cased name or email holds the query, and then it returns the list unchanged; otherwise it throws |
| Dashboard.KeepSearchFails | frontend/src/pages/Dashboard.js:51-56 | the search throws exactly when some lead misses on both the lower-cased name and the lower-cased email |
| Dashboard.FilterLeads | frontend/src/pages/Dashboard.js:40-60 | an ordered subsequence holding exactly the leads of the chosen status; `All` with a blank query gives the list itself; it throws exactly when the query is not blank and a remaining lead misses on name and email |
| LeadForm.Set | frontend/src/components/LeadForm.js:35-38 | the named field takes the value and every other field is unchanged |
| LeadForm.WithError | frontend/src/components/LeadForm.js:41-44 | the named field's message is set and every other message is unchanged |
| LeadForm.FormErrors | frontend/src/components/LeadForm.js:51-71 | definition: the four client-side checks, each recording its message |
| LeadForm.FormErrorsCases | frontend/src/components/LeadForm.js:51-70 | a name shorter than 2 once trimmed, an empty status or project type and a blank requirement each record their message; the other fields never do |
| LeadForm.FormValidIff | frontend/src/components/LeadForm.js:51-73 | the form validates exactly when the trimmed name has at least 2 characters, both selects are set and the requirement has a non-whitespace character |
| LeadForm.DefaultFormErrors | frontend/src/components/LeadForm.js:9-20 | an untouched new form is refused for its name and its requirement only |
| LeadForm.FormLaxerThanSchema | frontend/src/components/LeadForm.js:60-62 | a form that validates with a status outside the seven still fails the schema |
| LeadForm.CollectErrors | frontend/src/components/LeadForm.js:51-71 | the errors recorded one check at a time are exactly the form's errors |
| LeadForm.Form.constructor | frontend/src/components/LeadForm.js:8-22 | the form holds the initial data, or the default record, and no errors |
| LeadForm.Form.HandleChange | frontend/src/components/LeadForm.js:33-46 | only the named field changes; its message, when it had a non-empty one, is cleared |
| LeadForm.Form.Validate | frontend/src/components/LeadForm.js:51-74 | the recorded errors are replaced by the form's errors, and the answer is true exactly when there are none |
| LeadForm.Form.HandleSubmit | frontend/src/components/LeadForm.js:79-85 | the record is handed on exactly when it validates |
| LeadTable.Compare | frontend/src/components/LeadTable.js:55-67 | the comparator answers -1, 0 or 1 |
| LeadTable.KeyTrichotomy | frontend/src/components/LeadTable.js:64-66 | for any two leads, exactly one of less, greater and equal key holds |
| LeadTable.CompareLaws | frontend/src/components/LeadTable.js:55-67 | 0 exactly for equal keys, antisymmetric, and negative exactly when the first key is smaller ascending or larger descending |
| LeadTable.CompareLeTotal | frontend/src/components/LeadTable.js:55-67 | the comparator induces a total order for sorting |
| LeadTable.SortedLeads | frontend/src/components/LeadTable.js:55-67 | definition: the leads sorted by the column comparator |
| LeadTable.SortedLeadsCorrect | frontend/src/components/LeadTable.js:55-67 | the sorted copy is a permutation of the leads, and no adjacent pair is out of order for the chosen field and direction |
| LeadTable.Flip | frontend/src/components/LeadTable.js:45 | the direction always changes |
| LeadTable.AfterClick | frontend/src/components/LeadTable.js:43-50 | the clicked column becomes the sort column; the same column flips direction, another starts ascending |
| LeadTable.ClickTwice | frontend/src/components/LeadTable.js:43-50 | two clicks on the sorted column restore its direction; two on another leave it descending |
| LeadTable.SortState.constructor | frontend/src/components/LeadTable.js:9-10 | the table starts sorted by creation time, descending |
| LeadTable.SortState.HandleSort | frontend/src/components/LeadTable.js:43-50 | the state moves as one header click prescribes |
| LeadTable.StatusColor | frontend/src/components/LeadTable.js:15-26 | a non-status gets `#718096`, and every answer is a hex colour |
| LeadTable.StatusColorsDistinct | frontend/src/components/LeadTable.js:15-26 | the seven statuses get seven different colours, and only `New` gets the fallback colour |
| LeadTable.Truncate | frontend/src/components/LeadTable.js:136-138 | at most 50 characters are shown unchanged; a longer text becomes its first 50 characters followed by `...` |
| LeadTable.TruncateIdempotent | frontend/src/components/LeadTable.js:136-138 | shortening twice is shortening once |
| LeadTable.RequirementCell | frontend/src/components/LeadTable.js:134-142 | an empty requirement shows "No requirement"; any other shows shortened; the cell never exceeds 53 characters |
| StatsCard.Lookup | frontend/src/components/StatsCard.js:15-22 | a missing list, or one without the id, gives 0; otherwise the count of the first entry with that id |
| StatsCard.CardsOf | frontend/src/components/StatsCard.js:14-22 | the total card is the total or 0; a missing list zeroes its three cards |
| StatsCard.InitialCardsZero | frontend/src/pages/Dashboard.js:19 | before the first fetch every card reads 0 |
| StatsCard.CardsOfServerStats | frontend/src/components/StatsCard.js:14-22 | on the server's statistics each card is the number of leads holding its value, and each group of three cards adds up to at most the total |
| StatsCard.ThreeOccurrences | frontend/src/components/StatsCard.js:15-17 | three different values occur together no more often than the list is long |
| Cors.TrimAll | backend/server.js:17 | each entry is the trimmed piece at the same position |
| Cors.ParseOrigins | backend/server.js:16-18 | unset or empty gives `http://localhost:3000` alone; otherwise the comma-separated pieces, each trimmed |
| Cors.Decide | backend/server.js:21-29 | an origin is allowed exactly when it is missing or empty, listed exactly, or ends in `.vercel.app`; otherwise it is rejected with "Not allowed by CORS" |
| Cors.OriginCount | backend/server.js:16-18 | there is one entry more than there are commas |
| Cors.OriginsWellFormed | backend/server.js:17 | no entry holds a comma, or starts or ends with whitespace |
| Cors.TrimmedPiece | backend/server.js:17 | a trimmed piece keeps no comma and no edge whitespace |
| Cors.ListedPieceAllowed | backend/server.js:16-24 | every piece of the variable, once trimmed, is an allowed origin |
| Cors.DefaultPolicy | backend/server.js:16-28 | without the variable, an origin is allowed exactly when it is the local development origin or a `.vercel.app` host |
| Cors.VercelAlwaysAllowed | backend/server.js:24 | a `.vercel.app` host is allowed whatever the variable holds |
| Cors.ExactMatchOnly | backend/server.js:24 | listed origins are compared exactly: a trailing slash is rejected |
| ErrorHandler.Handle | backend/middleware/errorHandler.js:5-41 | never a success; ValidationError gives 400 with the field messages; code 11000 gives 400 "<first key> already exists" and throws without a key list; CastError gives 400 "Invalid ID format"; anything else gives its status code or 500 and its message or "Server Error" |
| ErrorHandler.ValidationFirst | backend/middleware/errorHandler.js:9-16 | a validation error answers the same whatever its code, keys or status code |
| ErrorHandler.DuplicateBeforeCast | backend/middleware/errorHandler.js:19-33 | a duplicate-key error named CastError is still reported as a duplicate |
| ErrorHandler.ClassifiedAre400 | backend/middleware/errorHandler.js:9-33 | every classified kind that does not throw answers 400 |
| ErrorHandler.DefaultIs500 | backend/middleware/errorHandler.js:36-40 | an unclassified error without a status code answers 500 |
| Scenarios.DeleteTwice | backend/controllers/leadController.js:223-257 | deleting a stored lead twice answers 200 then 404 and removes that lead alone |
| Scenarios.StatusTwice | backend/controllers/leadController.js:264-294 | setting a status twice leaves the record that one setting leaves |
| Scenarios.BogusStatusFirst | backend/controllers/leadController.js:268-275 | an unknown status on a malformed id answers the status message, with the store unchanged |
| Scenarios.PaddedNameCreate | backend/controllers/leadController.js:22-31 | a body with only the name `  ana li ` and a requirement conforms, and is stored as `Ana Li` with project type `App` and status `New` |
| Scenarios.CreatePaddedName | backend/controllers/leadController.js:8-47 | that create answers 201 with that record under the new id |
| Scenarios.ResaveLoaded | backend/models/Lead.js:87-95 | saving a loaded document whose name was not touched stores its fields unchanged |
| Scenarios.MalformedIdLookup | backend/controllers/leadController.js:133-139 | a lookup with a malformed id answers 400 "Invalid lead ID format" |
| Scenarios.TitleCaseExample | backend/models/Lead.js:90-93 | `ana li` is stored as `Ana Li` |
| Scenarios.TitleCaseLowersRest | backend/models/Lead.js:90-93 | `jo LEE` is stored as `Jo Lee` |
| Scenarios.PhoneSearchDisagrees | frontend/src/pages/Dashboard.js:51-56 | a lead the server finds by its phone number makes the browser's search throw |
| Text.TrimBounds | backend/models/Lead.js:12 | a trimmed text is empty or starts and ends with a non-whitespace character |
| Text.TrimEmptyIff | frontend/src/pages/Dashboard.js:49 | a text trims to empty exactly when it is all whitespace |
| Text.TrimSlice | backend/server.js:17 | a trimmed text is a contiguous slice of the original |
| Text.Contains | backend/controllers/leadController.js:69-73 | true exactly when the pattern occurs at some position |
| Text.Split | backend/models/Lead.js:91 | at least one piece, no piece holds the separator, and joining the pieces gives the text back |
| Text.SplitCount | backend/server.js:17 | splitting gives one piece more than there are separators |
| Text.LexLessTrichotomy | frontend/src/components/LeadTable.js:64-65 | different strings are ordered one way or the other, never both |
| Sorting.SortBySorted | backend/controllers/leadController.js:93 | sorting by a total order yields a sorted permutation |

## Left out

- Storage failures: the 500 branches of every handler that catch a database error ("Failed to fetch leads" and the like) are not modelled. Only the create branch, reached through validation, is modelled.
- LeadController.LeadStore.Create: the `error` field holds the list of per-path messages, not Mongoose's composed "Lead validation failed: …" text.
- LeadController.LeadStore.Create: the new id is a parameter, because ObjectId generation draws on the clock, the process and a counter.
- LeadController.LeadStore.GetAll: the order of leads with equal sort keys is not stated, because MongoDB does not define it. The model keeps insertion order among them.
- LeadStoreBasics.Overwrite: a body value is either absent or a string, so JSON `null` and non-string values, which `findByIdAndUpdate` stores as given (a stored `null` then shows up as a `_id: null` group in the statistics), are not modelled. An absent key leaves the stored value, as Mongoose 6 and later drop undefined keys from the update; Mongoose 5 would write `null`.
- LeadStoreBasics.GroupCounts: the groups come in order of first appearance. MongoDB leaves the order of `$group` output unspecified; every consumer looks groups up by id, so no property depends on it.
- ErrorHandler.Handle: a `ValidationError` is assumed to carry its `errors` object; the `Object.values(undefined)` failure when it does not is not modelled.
- LeadStoreBasics.WellFormedId: stands for the ObjectId cast as a 24-character hexadecimal string. Mongoose's acceptance of other 12-byte strings is not modelled.
- Timestamps are a natural-number clock that advances with every create and update (a delete leaves it alone), not `Date` values.
- Search on the server is a literal substring test with ASCII case folding. Regular-expression metacharacters, and the errors an invalid pattern raises, are not modelled.
- Case folding, for the email setter, the search and title-casing, is ASCII only. Lengths, the 50-character truncation and string order count Unicode scalar values; JavaScript counts UTF-16 code units, which differs for characters outside the Basic Multilingual Plane.
- LeadSchema.PhoneMatch and LeadSchema.EmailMatch: these are structural definitions of the two regular expressions. Their equivalence with the regular-expression engine is by construction, not proved.
- The development-mode `error: err` payload of the error handler is not modelled, and console logging is left out.
- LeadTable.StatusColor: a status naming an inherited object property (such as `constructor`) is not modelled.
- LeadForm.Form.constructor: extra keys of `initialData` (`_id`, timestamps) are not carried in the form record.
- The table sort and the server sort are modelled as functions on sequences: an insertion sort specified by order and permutation, not the engines' in-place sorts.
- Routing: `backend/routes/leadRoutes.js` registers `/stats` before `/:id` (line 14), so `stats` never reaches the lookup by id. The handlers are modelled directly.
- `frontend/src/components/FilterBar.js` is presentation only: the mapping of "All Statuses" to `All`, and a project-type select wired to nothing.
- `frontend/src/services/leadService.js` (the HTTP client), `frontend/src/pages/Login.js` (hard-coded credentials and local storage) and `sample-data.js` (console output) are not part of this model.
- Server bootstrap (listening, database connection, signal handlers, request logging) is not part of this model.
- Date formatting (`formatDate` and the `formattedCreatedAt` virtual) depends on the locale and is not modelled.
- React rendering, toasts, modals and the refetch after each change are not modelled, nor are concurrent requests and their last-write-wins outcome.
