/** The decisions of the backend's query routes, as functions of the store,
    the request and the clock: what `POST /ingest` creates and what
    `POST /:id/update` changes. `BuildUpdate` is the handler's own
    field-by-field construction of the update, proved equal to the planned
    one. The stateful service that applies these is in module QueryService. */
module QueryRoutes {
  import opened Wrappers
  import opened Text
  import opened QueryModel

  /** The failures the routes answer with: 400, 404 and 500. */
  datatype Failure = InvalidInput | NotFound | ServerError

  /** The body of `POST /ingest`; each field may be missing. */
  datatype IngestRequest = IngestRequest(sourceChannel: Option<string>, sourceId: Option<string>, rawText: Option<string>)

  /** What the call to the classification service yields once it settles:
      the call raises (a refused or broken connection, a non-2xx status), or
      it answers with a body
      whose `tags` is an array or not (`None`) and whose `priority` may be
      missing. */
  datatype ClassifierReply = CallFailed | Replied(tags: Option<seq<string>>, priority: Option<string>)

  /** The body of `POST /:id/update`; each field may be missing. */
  datatype UpdateRequest = UpdateRequest(status: Option<string>, assignedTo: Option<string>,
                                         action: Option<string>, details: Option<string>)

  /** The `$set` part of the update: the fields that change, with their new
      values. */
  datatype UpdatedFields = UpdatedFields(status: Option<string>, assignedTo: Option<string>,
                                         firstResponseTime: Option<int>, resolutionTime: Option<int>)

  const NoFields := UpdatedFields(None, None, None, None)

  const ClassificationFailed := "Classification Failed"
  const DefaultAction := "Update"
  const DefaultDetails := "Status/Assignment change"
  const StatusChangedAction := "Status Changed"

  // ---- Ingest --------------------------------------------------------------

  /** The tags the handler keeps from the classifier's reply. */
  function ReplyTags(reply: ClassifierReply): seq<string> {
    match reply
    case CallFailed => [ClassificationFailed]
    case Replied(tags, _) => if tags.Some? then tags.value else [ClassificationFailed]
  }

  /** The priority name the handler keeps from the classifier's reply. */
  function ReplyPriority(reply: ClassifierReply): string {
    match reply
    case CallFailed => "Low"
    case Replied(_, priority) => OrElse(priority, "Medium")
  }

  /** How a template literal prints an optional string. */
  function TemplateText(v: Option<string>): string {
    if v.Some? then v.value else "undefined"
  }

  /** `sourceId || \`${sourceChannel}_${Date.now()}\``. */
  function DerivedSourceId(channel: Option<string>, sourceId: Option<string>, now: nat): string {
    if Truthy(sourceId) then sourceId.value else TemplateText(channel) + "_" + NatToString(now)
  }

  function IngestDetails(channel: Option<string>): string {
    "Received from " + TemplateText(channel)
  }

  predicate SourceIdTaken(store: map<string, Query>, sid: string) {
    exists k :: k in store && store[k].sourceId == sid
  }

  /** The outcome of `POST /ingest` on a store: 400 without text; otherwise
      the document built from the classifier's reply, refused with 500 when
      the schema rejects it or when its `_id` or `sourceId` is already
      taken. `freshId` is the ObjectId Mongoose generates. */
  function IngestOutcome(store: map<string, Query>, req: IngestRequest, reply: ClassifierReply,
                         freshId: string, now: nat): Result<Query, Failure>
  {
    if !Truthy(req.rawText) then Err(InvalidInput)
    else
      var sid := DerivedSourceId(req.sourceChannel, req.sourceId, now);
      var doc := NewDocument(freshId, req.sourceChannel, sid, req.rawText.value,
                             ReplyTags(reply), ReplyPriority(reply),
                             IngestAction, IngestDetails(req.sourceChannel), now);
      if doc.None? || freshId in store || SourceIdTaken(store, sid) then Err(ServerError)
      else Ok(doc.value)
  }

  function StoreAfterIngest(store: map<string, Query>, req: IngestRequest, reply: ClassifierReply,
                            freshId: string, now: nat): map<string, Query>
  {
    var r := IngestOutcome(store, req, reply, freshId, now);
    if r.Ok? then store[freshId := r.value] else store
  }

  // ---- Update --------------------------------------------------------------

  /** `status && status !== query.status`. */
  predicate ChangesStatus(q: Query, req: UpdateRequest) {
    Truthy(req.status) && req.status.value != StatusName(q.status)
  }

  /** The first-response branch: out of New into In Progress, metric unset. */
  predicate RecordsFirstResponse(q: Query, req: UpdateRequest) {
    && ChangesStatus(q, req)
    && q.status == New
    && req.status.value == "In Progress"
    && !IsRecorded(q.responseMetrics.firstResponseTime)
  }

  /** The resolution branch: into Resolved from any other status, metric unset. */
  predicate RecordsResolution(q: Query, req: UpdateRequest) {
    && ChangesStatus(q, req)
    && req.status.value == "Resolved"
    && !IsRecorded(q.responseMetrics.resolutionTime)
  }

  /** `assignedTo !== undefined && assignedTo !== query.assignedTo`, on the
      raw value, before an empty string is normalised. */
  predicate ChangesAssignee(q: Query, req: UpdateRequest) {
    req.assignedTo.Some? && req.assignedTo.value != q.assignedTo
  }

  /** `assignedTo || 'Unassigned'`. */
  function NewAssignee(req: UpdateRequest): string {
    OrElse(req.assignedTo, Unassigned)
  }

  function AssignmentAction(assignee: string): string {
    if assignee != Unassigned then "Assigned" else "Unassigned"
  }

  function AssignmentDetails(assignee: string): string {
    if assignee != Unassigned then "Assigned to: " + assignee else "Unassigned"
  }

  /** Seconds with two decimals, as `toFixed(2)` prints elapsed milliseconds
      divided by 1000 (truncated to hundredths). */
  function FormatSeconds(ms: int): string {
    var magnitude := if ms < 0 then -ms else ms;
    var hundredths := magnitude / 10;
    (if ms < 0 then "-" else "") + NatToString(hundredths / 100) + "."
      + [DigitChar(hundredths % 100 / 10), DigitChar(hundredths % 10)]
  }

  function FirstResponseNote(ms: int): string {
    " (First response time recorded: " + FormatSeconds(ms) + "s)"
  }

  function ResolutionNote(ms: int): string {
    " (Resolution time recorded: " + FormatSeconds(ms) + "s)"
  }

  /** The details of a status change, followed by the note of each metric
      it records. */
  function WithMetricNotes(details: string, first: bool, resolution: bool, elapsed: int): string {
    var d := if first then details + FirstResponseNote(elapsed) else details;
    if resolution then d + ResolutionNote(elapsed) else d
  }

  /** The `$set` the update handler decides on. */
  function PlannedFields(q: Query, req: UpdateRequest, now: nat): UpdatedFields {
    var elapsed := now - q.createdAt;
    UpdatedFields(
      if ChangesStatus(q, req) then req.status else None,
      if ChangesAssignee(q, req) then Some(NewAssignee(req)) else None,
      if RecordsFirstResponse(q, req) then Some(elapsed) else None,
      if RecordsResolution(q, req) then Some(elapsed) else None)
  }

  /** The one history entry the update handler pushes. An assignment change
      decides action and details, discarding a status change's; a status
      change alone sets the action and appends the metric note to the
      details; otherwise the client's action and details, or the defaults. */
  function PlannedEntry(q: Query, req: UpdateRequest, now: nat): HistoryEntry {
    var elapsed := now - q.createdAt;
    if ChangesAssignee(q, req) then
      HistoryEntry(now, AssignmentAction(NewAssignee(req)), AssignmentDetails(NewAssignee(req)))
    else if ChangesStatus(q, req) then
      HistoryEntry(now, StatusChangedAction,
                   WithMetricNotes(OrElse(req.details, DefaultDetails),
                                   RecordsFirstResponse(q, req), RecordsResolution(q, req), elapsed))
    else
      HistoryEntry(now, OrElse(req.action, DefaultAction), OrElse(req.details, DefaultDetails))
  }

  /** `findByIdAndUpdate(id, {$set: fields, $push: {history: entry}},
      {runValidators: true})`: all changes together or, when the validator
      rejects the new status, none. */
  function ApplyUpdate(q: Query, fields: UpdatedFields, entry: HistoryEntry, now: nat): Option<Query> {
    if fields.status.Some? && ParseStatus(fields.status.value).None? then None
    else
      Some(q.(
        status := if fields.status.Some? then ParseStatus(fields.status.value).value else q.status,
        assignedTo := if fields.assignedTo.Some? then fields.assignedTo.value else q.assignedTo,
        responseMetrics := ResponseMetrics(
          if fields.firstResponseTime.Some? then fields.firstResponseTime else q.responseMetrics.firstResponseTime,
          if fields.resolutionTime.Some? then fields.resolutionTime else q.responseMetrics.resolutionTime),
        history := q.history + [entry],
        updatedAt := now))
  }

  /** The outcome of `POST /:id/update`: 400 on a malformed id before any
      lookup, 404 on an unknown one, 500 when the validator refuses. The
      lookup ignores the case of the id's hex letters. */
  function UpdateOutcome(store: map<string, Query>, id: string, req: UpdateRequest, now: nat): Result<Query, Failure> {
    if !IsObjectId(id) then Err(InvalidInput)
    else if CanonicalId(id) !in store then Err(NotFound)
    else
      var q := store[CanonicalId(id)];
      var updated := ApplyUpdate(q, PlannedFields(q, req, now), PlannedEntry(q, req, now), now);
      if updated.None? then Err(ServerError) else Ok(updated.value)
  }

  function StoreAfterUpdate(store: map<string, Query>, id: string, req: UpdateRequest, now: nat): map<string, Query> {
    var r := UpdateOutcome(store, id, req, now);
    if r.Ok? then store[CanonicalId(id) := r.value] else store
  }

  /** Lines building `historyEntry` and `updatedFields`: start from the
      client's action and details, then let the status branch and after it
      the assignment branch overwrite them. */
  method BuildUpdate(q: Query, req: UpdateRequest, now: nat) returns (fields: UpdatedFields, entry: HistoryEntry)
    ensures fields == PlannedFields(q, req, now)
    ensures entry == PlannedEntry(q, req, now)
  {
    entry := HistoryEntry(now, OrElse(req.action, DefaultAction), OrElse(req.details, DefaultDetails));
    fields := NoFields;
    if Truthy(req.status) && req.status.value != StatusName(q.status) {
      fields := fields.(status := req.status);
      entry := entry.(action := StatusChangedAction);
      if q.status == New && req.status.value == "In Progress" && !IsRecorded(q.responseMetrics.firstResponseTime) {
        var timeDiff := now - q.createdAt;
        fields := fields.(firstResponseTime := Some(timeDiff));
        entry := entry.(details := entry.details + FirstResponseNote(timeDiff));
      }
      if req.status.value == "Resolved" && !IsRecorded(q.responseMetrics.resolutionTime) {
        var timeDiff := now - q.createdAt;
        fields := fields.(resolutionTime := Some(timeDiff));
        entry := entry.(details := entry.details + ResolutionNote(timeDiff));
      }
    }
    if req.assignedTo.Some? && req.assignedTo.value != q.assignedTo {
      var newAssignment := OrElse(req.assignedTo, Unassigned);
      fields := fields.(assignedTo := Some(newAssignment));
      entry := entry.(action := if newAssignment != Unassigned then "Assigned" else "Unassigned");
      entry := entry.(details := if newAssignment != Unassigned then "Assigned to: " + newAssignment else "Unassigned");
    }
  }
}
