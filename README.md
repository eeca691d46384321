# Unified query inbox, modelled in Dafny

The inbox collects customer queries from several channels. Each query goes
through these stages:

1. The Express backend accepts it on `POST /ingest`.
2. The backend asks a Flask keyword classifier for tags and a priority.
3. The backend stores it as a Mongoose `Query` document and broadcasts it
   over a socket.
4. Agents change its status and assignee through `POST /:id/update`. Each
   update appends an audit entry to the query's history and may record the
   first-response and resolution times.
5. A React dashboard keeps a client-side list of queries, patched by the
   broadcasts and by update responses, and shows one of three views.

The project models these parts:

| file | module | contents |
|---|---|---|
| `wrappers.dfy` | `Wrappers` | `Option` and `Result` |
| `text.dfy` | `Text` | JavaScript truthiness of optional strings; `v \|\| fallback`; decimal rendering of the clock, with its inverse; substring search, which stands for Python's `in` and a literal `re.search` |
| `query_model.dfy` | `QueryModel` | the `Query` document; the three enumerations and their enum checks; the defaults and validation applied on creation; the well-formedness of a stored query; the collection invariant, i.e. keyed by `_id` with a unique `sourceId` |
| `classifier.dfy` | `Classifier` | `classify_query` as a method over the lower-cased text, proved against a declarative characterisation; the `/classify` empty-text guard |
| `query_routes.dfy` | `QueryRoutes` | what each route decides, as functions of the store, the request and the clock; the update handler's own step-by-step construction of `$set` and the history entry (`BuildUpdate`) |
| `lifecycle.dfy` | `Lifecycle` | lemmas about the two routes (see the "Lifecycle lemmas" list below) |
| `query_service.dfy` | `QueryService` | the router as a class: the collection, the broadcast log and the log of texts sent to the classifier, updated in place by `Ingest` and `Update` |
| `dashboard.dfy` | `Dashboard` | the dashboard's list state as a class; the list transforms and view filters as functions; the payloads of the two dropdowns; lemmas linking the client list to the server store |

The `Lifecycle` lemmas prove:

- error precedence, i.e. which failure a request gets when several apply;
- exact success conditions for both routes;
- the fields a new query gets;
- fallbacks when the classifier fails;
- every update appends exactly one history entry;
- when each response metric is written;
- how an assignment overrides the history entry;
- the invariant holds over any sequence of requests, and each stored query only evolves.

The environment enters the model as parameters:

- the clock is `now`, in milliseconds;
- the classifier's reply is a `ClassifierReply` value;
- the ObjectId that Mongoose generates is `freshId`.

The second stage is the only point where the backend talks to the
classifier. The model represents that call by the `ClassifierReply`
parameter and the `classifierRequests` log.

The model follows the code in these less obvious cases:

- On a status change, the history entry's action is always
  `Status Changed`, whatever action the client sent.
- An assignment change in the same call replaces the entry's action and
  details. That also discards the metric note the status branch appended.
- A second `Resolved` update changes nothing but still appends an entry.
- The assignee comparison uses the raw value. So an empty `assignedTo` on
  an already unassigned query still counts as a change.
- A recorded metric of exactly 0 counts as unset, because the code tests
  its truthiness.
- The classifier never returns priority Medium (see Findings).
- The classifier call has no time-out, so there is no fallback for a
  classifier that never answers; the `Classification Failed`/`Low`
  fallback applies only to a call that raises.

## Model

| member | source | states |
|---|---|---|
| QueryModel.ParseChannel | Backend/models/Query.js:4-18 | the enum check on `sourceChannel` accepts exactly the nine channel names and maps each to its channel |
| QueryModel.ParsePriority | Backend/models/Query.js:24 | the enum check on `priority` accepts exactly Low, Medium, High and Urgent |
| QueryModel.ParseStatus | Backend/models/Query.js:26 | the enum check on `status` accepts exactly the five status names, `In Progress` with its space |
| QueryModel.NewDocument | Backend/models/Query.js:3-38 | creation succeeds iff the channel is absent or valid, the priority is valid and the text is non-empty; the document then has the channel (Simulated when absent), status New, assignee Unassigned, null metrics, the one given history entry stamped `now`, and both timestamps `now` |
| QueryModel.IsObjectId | Backend/routes/queryRoutes.js:80 | no ensures of its own (a predicate): `ObjectId.isValid` as 24 hex digits of either case; `Lifecycle.UpdateRejectsBadIds` states its use |
| QueryModel.CanonicalId | Backend/routes/queryRoutes.js:85 | the key `findById` looks up: same length, each hex letter lower-cased |
| QueryModel.CanonicalIdKeys | Backend/routes/queryRoutes.js:80-85 | every valid spelling leads to a lower-case key, a lower-case id is its own key, and two spellings share a key exactly when they differ only in letter case |
| QueryModel.WellFormed | Backend/models/Query.js:20-38 | no ensures of its own (a predicate): lower-case ObjectId, required text, non-empty sourceId and assignee, history starting with the ingestion entry; kept by `Lifecycle.IngestPreservesInvariant` and `Lifecycle.UpdatePreservesInvariant` |
| QueryModel.StoreInvariant | Backend/models/Query.js:20 | no ensures of its own (a predicate): keyed by `_id`, every document well-formed, unique `sourceId`; kept by `Lifecycle.RunPreservesInvariant` |
| QueryModel.ChannelNameHasNoUnderscore | Backend/models/Query.js:7-17 | no channel name contains `_` |
| QueryModel.NamesInjective | Backend/models/Query.js:7-26 | distinct channels, priorities and statuses have distinct names |
| Text.NatToString | Backend/routes/queryRoutes.js:53 | `Date.now()` prints as a non-empty digit string without leading zeros |
| Text.ParseNatToString | Backend/routes/queryRoutes.js:53 | reading the printed clock value back gives the original number |
| Text.NatToStringInjective | Backend/routes/queryRoutes.js:53 | different clock readings print differently |
| Text.SeparatedInjective | Backend/routes/queryRoutes.js:53 | `a_d` determines `a` and `d` when `a` contains no `_` |
| Classifier.Lower | nlp-microservice/app.py:12 | the lower-cased text has the same length, each character lower-cased |
| Classifier.LowerIdempotent | nlp-microservice/app.py:12 | lower-casing twice equals lower-casing once |
| Classifier.Dedup | nlp-microservice/app.py:38 | `list(set(tags))` has no duplicates and exactly the same members |
| Classifier.TopicalTags | nlp-microservice/app.py:16-26 | the four appends give topical tags without duplicates, each present iff one of its group's words occurs, and none iff no group matches |
| Classifier.ClassifyQuery | nlp-microservice/app.py:8-44 | the tags are distinct known tags; each topical tag is present iff one of its words occurs in the lower-cased text; General Inquiry is present iff no group matches; the priority is Urgent, High or Low per the if/elif chain as written |
| Classifier.Classify | nlp-microservice/app.py:46-58 | a missing or empty text is refused without classifying; any other text is classified as `classify_query` does |
| Classifier.GeneralInquiryAlone | nlp-microservice/app.py:38-42 | the tag list is never empty, has at most four tags, and General Inquiry only ever appears alone |
| Classifier.PriorityAsWritten | nlp-microservice/app.py:28-35 | no ensures of its own: the if/elif chain as it evaluates; specified by `Classifier.PriorityCases` |
| Classifier.PriorityCases | nlp-microservice/app.py:28-35 | iff conditions for each of Urgent, High and Low; the priority is never Medium |
| Classifier.IntendedPriorityCases | nlp-microservice/app.py:28-35 | the corrected chain gives Medium exactly for non-urgent, non-complaint questions and feature requests, and agrees with the code on urgent texts and on texts mentioning error or broken |
| Classifier.QuestionLosesMedium | nlp-microservice/app.py:30-33 | the text "how to" gets Low as written but Medium as intended |
| QueryRoutes.ReplyTags | Backend/routes/queryRoutes.js:37-45 | no ensures of its own: the reply's tags array or `Classification Failed`; specified by `Lifecycle.IngestCreates` and `Lifecycle.ClassifierFailureAbsorbed` |
| QueryRoutes.ReplyPriority | Backend/routes/queryRoutes.js:41-46 | no ensures of its own: the reply's priority or Medium, Low on a failed call; specified by `Lifecycle.IngestCreates`, `Lifecycle.ClassifierFailureAbsorbed` and `Lifecycle.UnknownPriorityRejected` |
| QueryRoutes.DerivedSourceId | Backend/routes/queryRoutes.js:53 | no ensures of its own: the supplied sourceId or `channel_now`; specified by `Lifecycle.IngestCreates` and `Lifecycle.DerivedSourceIdsDistinct` |
| QueryRoutes.IngestOutcome | Backend/routes/queryRoutes.js:22-71 | no ensures of its own: the reply of `POST /ingest`; specified by `Lifecycle.IngestRejectsEmptyText`, `Lifecycle.IngestSucceedsIff` and `Lifecycle.IngestCreates` |
| QueryRoutes.FormatSeconds | Backend/routes/queryRoutes.js:97-106 | no ensures of its own: elapsed milliseconds as seconds with two decimals; used in the notes `Lifecycle.FirstResponseScenario` states |
| QueryRoutes.PlannedFields | Backend/routes/queryRoutes.js:89-116 | no ensures of its own: the `$set` the handler decides on; tied to the handler by `QueryRoutes.BuildUpdate` and specified by `Lifecycle.UpdateAppendsOneEntry` and `Lifecycle.MetricsRule` |
| QueryRoutes.PlannedEntry | Backend/routes/queryRoutes.js:88-121 | no ensures of its own: the pushed history entry; tied to the handler by `QueryRoutes.BuildUpdate` and specified by `Lifecycle.StatusChangeEntry`, `Lifecycle.AssignmentOverridesEntry`, `Lifecycle.NoChangeStillRecorded` and `Lifecycle.EmptyAssigneeOnUnassigned` |
| QueryRoutes.ApplyUpdate | Backend/routes/queryRoutes.js:123-127 | no ensures of its own: `$set` and `$push` together, or nothing when the status fails validation; specified by `Lifecycle.UpdateSucceedsIff` and `Lifecycle.UpdateAppendsOneEntry` |
| QueryRoutes.UpdateOutcome | Backend/routes/queryRoutes.js:75-138 | no ensures of its own: the reply of `POST /:id/update`; specified by `Lifecycle.UpdateRejectsBadIds`, `Lifecycle.AnySpellingSameOutcome`, `Lifecycle.UpdateSucceedsIff` and `Lifecycle.UpdateAppendsOneEntry` |
| QueryRoutes.BuildUpdate | Backend/routes/queryRoutes.js:88-121 | the handler's step-by-step construction of `updatedFields` and `historyEntry` equals the planned fields and entry |
| Lifecycle.IngestRejectsEmptyText | Backend/routes/queryRoutes.js:25-27 | missing or empty text gives 400 and leaves the store unchanged, whatever the classifier says |
| Lifecycle.IngestSucceedsIff | Backend/routes/queryRoutes.js:22-71 | ingest succeeds iff the text is present, channel and priority pass validation, and neither the new `_id` nor the sourceId is taken |
| Lifecycle.IngestCreates | Backend/routes/queryRoutes.js:30-58 | the new query's id, text and sourceId (the given one, or `channel_now`); tags and priority from the reply or its fallbacks; the schema defaults; one `Query Ingested` entry; well-formed when the id is a lower-case ObjectId |
| Lifecycle.ClassifierFailureAbsorbed | Backend/routes/queryRoutes.js:33-47 | a failed classifier call never changes whether ingest succeeds; it yields `Classification Failed` and Low |
| Lifecycle.UnknownPriorityRejected | Backend/routes/queryRoutes.js:41 | a reply priority outside the enum makes the save fail with 500 |
| Lifecycle.DerivedSourceIdsDistinct | Backend/routes/queryRoutes.js:53 | two derived sourceIds are equal only for the same channel text and the same millisecond |
| Lifecycle.ValidChannelTextHasNoUnderscore | Backend/routes/queryRoutes.js:53 | the channel part of a derived sourceId contains no `_` when the channel is valid or absent |
| Lifecycle.IngestPreservesInvariant | Backend/routes/queryRoutes.js:51-60 | ingest keeps every stored query well-formed, keyed by its id, with unique sourceIds |
| Lifecycle.UpdateRejectsBadIds | Backend/routes/queryRoutes.js:80-86 | a malformed id gives 400 before any lookup; an unknown id gives 404; a failure leaves the store unchanged |
| Lifecycle.AnySpellingSameOutcome | Backend/routes/queryRoutes.js:80-86 | an id spelled with upper-case hex letters gets the outcome and the store change of its lower-case spelling, and finds a stored query |
| Lifecycle.UpdateSucceedsIff | Backend/routes/queryRoutes.js:92-127 | an update of a known query fails only when it changes the status to a name outside the enum |
| Lifecycle.UpdateAppendsOneEntry | Backend/routes/queryRoutes.js:88-127 | exactly one entry stamped `now` is appended and earlier entries are kept; status and assignee change only as decided; the id, text, channel, sourceId, tags, priority and `createdAt` stay; `updatedAt` becomes `now`; `Lifecycle.MetricsRule` gives the metrics |
| Lifecycle.MetricsRule | Backend/routes/queryRoutes.js:96-107 | first response time is written only on New to In Progress while unset, resolution time only on entering Resolved while unset, each as the time since creation; a recorded value is never overwritten |
| Lifecycle.StatusChangeEntry | Backend/routes/queryRoutes.js:88-107 | a status change without an assignee change records `Status Changed` whatever action the client sent; the details start with the client's details or the default ones, and gain a note exactly when a metric is recorded |
| Lifecycle.AssignmentOverridesEntry | Backend/routes/queryRoutes.js:111-121 | an assignee change decides the entry's action and details, discarding the status action and the metric note |
| Lifecycle.NoChangeStillRecorded | Backend/routes/queryRoutes.js:88-127 | with no status or assignee change, only the history (one entry with the client's or the default action and details) and `updatedAt` change |
| Lifecycle.EmptyAssigneeOnUnassigned | Backend/routes/queryRoutes.js:111-120 | an empty assignee on an unassigned query still counts as a change and records an `Unassigned` entry |
| Lifecycle.UpdatePreservesInvariant | Backend/routes/queryRoutes.js:123-127 | update keeps the collection invariant |
| Lifecycle.FirstResponseScenario | Backend/routes/queryRoutes.js:92-100 | New to In Progress ten seconds after creation records 10000 ms and one entry carrying the note |
| Lifecycle.ResolveTwice | Backend/routes/queryRoutes.js:92-108 | resolving twice sets the resolution time once; the second call still appends an entry |
| Lifecycle.ResolveAndAssignCommute | Backend/routes/queryRoutes.js:92-127 | a resolution and an assignment both take effect whatever their order, each adding one entry |
| Lifecycle.StepEvolves | Backend/routes/queryRoutes.js:22-138 | one request never removes a stored query and keeps its identity, text, tags, priority, history prefix and recorded metrics |
| Lifecycle.RunEvolves | Backend/routes/queryRoutes.js:22-138 | the same over any sequence of requests |
| Lifecycle.RunPreservesInvariant | Backend/routes/queryRoutes.js:22-138 | any sequence of requests keeps the collection invariant |
| QueryService.QueryRouter.constructor | Backend/routes/queryRoutes.js:1-7 | an empty collection, no broadcasts, no classifier calls, and the invariant |
| QueryService.QueryRouter.Ingest | Backend/routes/queryRoutes.js:22-71 | the handler returns the ingest outcome and stores the new query; it broadcasts `newQuery` only on success and calls the classifier only when there is text; the invariant is kept |
| QueryService.QueryRouter.Update | Backend/routes/queryRoutes.js:75-138 | the handler returns the update outcome, looks the query up by the lower-case spelling of the id, applies `$set` and `$push` together, and broadcasts `queryUpdated` only on success; the invariant is kept |
| Dashboard.ReplaceById | frontend/src/components/QueryDashboard.js:66-68 | same length; exactly the elements with the id are replaced |
| Dashboard.WithAssignee | frontend/src/components/QueryDashboard.js:81 | holds exactly the queries assigned to the name, and is no longer than the list |
| Dashboard.WithAssigneeCounts | frontend/src/components/QueryDashboard.js:81-84 | the filter keeps every copy of each selected query and no copy of any other |
| Dashboard.ViewOf | frontend/src/components/QueryDashboard.js:79-87 | no ensures of its own: `filteredQueries`; specified by `Dashboard.ViewContents` and `Dashboard.ViewAfterNewQuery` |
| Dashboard.AssigneePayload | frontend/src/components/QueryDashboard.js:193-197 | no ensures of its own: the assignee dropdown's request body; its effect is stated by `Dashboard.AssigneeOption` |
| Dashboard.StatusPayload | frontend/src/components/QueryDashboard.js:214-218 | no ensures of its own: the status dropdown's request body; its effect is stated by `Dashboard.StatusOption` |
| Dashboard.DashboardState.constructor | frontend/src/components/QueryDashboard.js:20-22 | empty list, loading, view My Queries |
| Dashboard.DashboardState.FetchCompleted | frontend/src/components/QueryDashboard.js:26-35 | a response replaces the list; an error keeps it; loading ends either way |
| Dashboard.DashboardState.OnNewQuery | frontend/src/components/QueryDashboard.js:59-62 | the new query is prepended |
| Dashboard.DashboardState.OnQueryUpdated | frontend/src/components/QueryDashboard.js:64-69 | elements with the broadcast query's id are replaced by it |
| Dashboard.DashboardState.HandleUpdate | frontend/src/components/QueryDashboard.js:37-48 | the router performs the update; on success the response replaces the element with the requested id; on error the list is kept; the router's broadcast and classifier logs change as its `Update` states |
| Dashboard.DashboardState.SetView | frontend/src/components/QueryDashboard.js:126-130 | only the view changes |
| Dashboard.ReplaceAbsent | frontend/src/components/QueryDashboard.js:66-68 | a broadcast for an id not in the list changes nothing |
| Dashboard.ReplaceIdempotent | frontend/src/components/QueryDashboard.js:37-69 | applying an update's response and then its broadcast gives the same list as one of them |
| Dashboard.WithAssigneeAppend | frontend/src/components/QueryDashboard.js:79-87 | filtering distributes over concatenation |
| Dashboard.WithAssigneeIsSubsequence | frontend/src/components/QueryDashboard.js:81-84 | a filtered view keeps list order |
| Dashboard.ViewContents | frontend/src/components/QueryDashboard.js:79-87 | Unassigned shows exactly the unassigned queries and My Queries exactly Agent Alpha's, every copy of each, in list order; All Queries and any other view show the whole list |
| Dashboard.ViewAfterNewQuery | frontend/src/components/QueryDashboard.js:59-87 | after a `newQuery` broadcast, a view shows the new query first when it selects it, then what it showed before |
| Dashboard.UpdateKeepsMirror | frontend/src/components/QueryDashboard.js:64-69 | a list that mirrors the store still mirrors it after an update and its broadcast, which carries the stored lower-case id |
| Dashboard.IngestKeepsMirror | frontend/src/components/QueryDashboard.js:59-62 | a list that mirrors the store still mirrors it after an ingest and its broadcast |
| Dashboard.IngestKeepsRecencyOrder | Backend/routes/queryRoutes.js:13 | prepending a newly ingested query to a newest-first listing of the store gives a newest-first listing of the new store, provided the clock does not run backwards |
| Dashboard.AssigneeOption | frontend/src/components/QueryDashboard.js:190-205 | on a well-formed store every option (Unassigned or a mock agent) succeeds and sets the assignee; Unassigned records `Unassigned`/`Unassigned`, a new agent the server's `Assigned to: <agent>`, and re-choosing the current agent the client's `Assigned to <agent>` |
| Dashboard.StatusOption | frontend/src/components/QueryDashboard.js:214-218 | choosing a status sets it, and the entry's action is `Status Changed` |
| Dashboard.StatusOptionsAreStatuses | frontend/src/components/QueryDashboard.js:16 | the dropdown offers exactly the five status names the schema accepts |

## Left out

- I/O and wiring are not modelled: HTTP transport, JSON parsing, Express and Flask routing, CORS, Socket.IO connection management, and console logging. Replies to the client are outcomes, and broadcasts are the `events` log.
- Concurrency is not modelled. Each request is one atomic step on the store. Two concurrent updates of one query reading the same old version are not modelled.
- `GET /`: the sort by `createdAt` is done by MongoDB. The model only states what a newest-first listing is (`Dashboard.IsRecencyListing`) and proves that ingest keeps it.
- Response metrics are stored as whole milliseconds (`Option<int>`), while the source stores seconds as a floating-point number. `QueryRoutes.FormatSeconds` truncates to hundredths where `toFixed(2)` rounds.
- `Classifier.Lower` lower-cases ASCII letters only; Python's `str.lower` covers all of Unicode.
- `Classifier.Dedup` keeps first occurrences. The tag order that Python's set iteration yields is not modelled; contracts speak of tag membership only.
- `QueryModel.IsObjectId` accepts only 24-hex-digit strings. `ObjectId.isValid` also accepts any 12-character string, which the model refuses with 400.
- Each request reads the clock once, as `now`. The source reads it several times within one request: for the derived sourceId, for the default history timestamp and for `createdAt` on ingest, and for the time difference, the pushed entry's timestamp and `updatedAt` on update. So `QueryModel.WellFormed`'s clause that the first history entry is stamped at `createdAt` holds in the model but only up to a few milliseconds in the source.
- Request fields are either strings or absent. Other JSON value types, such as numbers or objects, are not modelled. Neither is a classifier reply whose tags are an array of non-strings.
- The ingest handler's 500 covers both a validation failure and a duplicate key. The model also refuses an `_id` that is already present, which Mongoose's generator avoids in practice.
- Response messages such as `msg` texts and 201/500 bodies are not modelled, nor are Mongoose's `__v` and timestamp bookkeeping beyond `createdAt` and `updatedAt`.
- The dashboard's rendering is not modelled: badges, colours, dates, the form toggle and the loading screen. `QueryInputForm.js`, `App.js` and `server.js` are not part of this model.
- The classifier call at Backend/routes/queryRoutes.js:34 has no time-out. A classifier that accepts the connection and never answers leaves the ingest request pending for good: no reply, no document and no broadcast. The model assumes every call settles, as a `ClassifierReply`.
- The classifier route's 500 on an internal exception is not modelled, because the modelled `classify_query` cannot raise. The backend sees any classifier failure as `CallFailed`.

## Findings

| source | as written | input that shows it | evidently intended | confidence | as-written member | corrected member |
|---|---|---|---|---|---|---|
| nlp-microservice/app.py:30-33 | the chain tests `'complaint' in tags`, `'feature request' in tags` and `'question' in tags`, but the tags are capitalised (`Complaint`, `Feature Request`, `Question`), so those tests are always false and Medium is unreachable | `"how to"` gets Low | complaints are High; questions and feature requests that are neither urgent nor complaints are Medium | not executed | Classifier.QuestionLosesMedium | Classifier.IntendedPriorityCases |
