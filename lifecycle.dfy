/** What the two routes guarantee about the query lifecycle: the schema's
    invariants are kept, history only grows by one entry per update, fields
    outside an update stay as they were, response metrics are written once,
    and the ingestion fallbacks. */
module Lifecycle {
  import opened Wrappers
  import opened Text
  import opened QueryModel
  import opened QueryRoutes

  // ---- Ingest --------------------------------------------------------------

  /** Missing or empty text is refused with 400, whatever the classifier
      would say and whatever the store holds. */
  lemma IngestRejectsEmptyText(store: map<string, Query>, req: IngestRequest, reply: ClassifierReply,
                               freshId: string, now: nat)
    requires !Truthy(req.rawText)
    ensures IngestOutcome(store, req, reply, freshId, now) == Err(InvalidInput)
    ensures StoreAfterIngest(store, req, reply, freshId, now) == store
  {
  }

  /** Ingest succeeds exactly when the text is present, the channel and the
      priority pass the schema, and neither the new `_id` nor the sourceId
      is taken. */
  lemma IngestSucceedsIff(store: map<string, Query>, req: IngestRequest, reply: ClassifierReply,
                          freshId: string, now: nat)
    ensures IngestOutcome(store, req, reply, freshId, now).Ok? <==>
              && Truthy(req.rawText)
              && ValidChannelInput(req.sourceChannel)
              && ParsePriority(ReplyPriority(reply)).Some?
              && freshId !in store
              && !SourceIdTaken(store, DerivedSourceId(req.sourceChannel, req.sourceId, now))
  {
  }

  /** A newly ingested query: its id and text, its sourceId (the supplied one
      or `channel_now`), tags and priority from the reply or its fallbacks,
      the schema's defaults, and one history entry. */
  lemma IngestCreates(store: map<string, Query>, req: IngestRequest, reply: ClassifierReply,
                      freshId: string, now: nat)
    requires IngestOutcome(store, req, reply, freshId, now).Ok?
    ensures var q := IngestOutcome(store, req, reply, freshId, now).value;
      && q.id == freshId
      && q.rawText == req.rawText.value
      && (Truthy(req.sourceId) ==> q.sourceId == req.sourceId.value)
      && (!Truthy(req.sourceId) ==> q.sourceId == TemplateText(req.sourceChannel) + "_" + NatToString(now))
      && (req.sourceChannel.None? ==> q.sourceChannel == Simulated)
      && (req.sourceChannel.Some? ==> ChannelName(q.sourceChannel) == req.sourceChannel.value)
      && (reply.CallFailed? ==> q.autoTags == [ClassificationFailed] && q.priority == Low)
      && (reply.Replied? && reply.tags.Some? ==> q.autoTags == reply.tags.value)
      && (reply.Replied? && reply.tags.None? ==> q.autoTags == [ClassificationFailed])
      && (reply.Replied? && !Truthy(reply.priority) ==> q.priority == Medium)
      && (reply.Replied? && Truthy(reply.priority) ==> PriorityName(q.priority) == reply.priority.value)
      && q.status == New && q.assignedTo == Unassigned && q.responseMetrics == NoMetrics
      && q.history == [HistoryEntry(now, "Query Ingested", "Received from " + TemplateText(req.sourceChannel))]
      && q.createdAt == now && q.updatedAt == now
      && (IsCanonicalId(freshId) ==> WellFormed(q))
  {
  }

  /** An unavailable classifier never makes ingestion fail: with a failed
      call the outcome is what it would be with any valid reply, and the
      query carries the fallback tags and Low priority. */
  lemma ClassifierFailureAbsorbed(store: map<string, Query>, req: IngestRequest, tags: seq<string>,
                                  p: Priority, freshId: string, now: nat)
    ensures var failed := IngestOutcome(store, req, CallFailed, freshId, now);
            var answered := IngestOutcome(store, req, Replied(Some(tags), Some(PriorityName(p))), freshId, now);
      && failed.Ok? == answered.Ok?
      && (failed.Err? ==> failed.error == answered.error)
      && (failed.Ok? ==> failed.value.autoTags == [ClassificationFailed] && failed.value.priority == Low)
      && (answered.Ok? ==> answered.value.autoTags == tags && answered.value.priority == p)
  {
    assert ParsePriority(PriorityName(p)) == Some(p);
  }

  /** A reply whose priority is not one of the four names lets the document
      fail validation: the only way a reply can make ingestion fail. */
  lemma UnknownPriorityRejected(store: map<string, Query>, req: IngestRequest, tags: Option<seq<string>>,
                                name: string, freshId: string, now: nat)
    requires Truthy(req.rawText) && name != "" && ParsePriority(name).None?
    ensures IngestOutcome(store, req, Replied(tags, Some(name)), freshId, now) == Err(ServerError)
  {
  }

  /** Two derived sourceIds coincide only for the same channel text and the
      same millisecond, provided the channel texts hold no `_` (true of
      every valid channel and of "undefined"). */
  lemma DerivedSourceIdsDistinct(c1: Option<string>, t1: nat, c2: Option<string>, t2: nat)
    requires '_' !in TemplateText(c1) && '_' !in TemplateText(c2)
    requires DerivedSourceId(c1, None, t1) == DerivedSourceId(c2, None, t2)
    ensures TemplateText(c1) == TemplateText(c2) && t1 == t2
  {
    SeparatedInjective(TemplateText(c1), NatToString(t1), TemplateText(c2), NatToString(t2), '_');
    NatToStringInjective(t1, t2);
  }

  /** A valid channel's derived sourceId has no `_` before the separator. */
  lemma ValidChannelTextHasNoUnderscore(c: Option<string>)
    requires ValidChannelInput(c)
    ensures '_' !in TemplateText(c)
  {
    if c.Some? {
      ChannelNameHasNoUnderscore(ParseChannel(c.value).value);
    }
  }

  /** Ingest keeps the collection's invariant: the new document is
      well-formed and its `_id` and `sourceId` are unused. */
  lemma IngestPreservesInvariant(store: map<string, Query>, req: IngestRequest, reply: ClassifierReply,
                                 freshId: string, now: nat)
    requires StoreInvariant(store) && IsCanonicalId(freshId)
    ensures StoreInvariant(StoreAfterIngest(store, req, reply, freshId, now))
  {
    var r := IngestOutcome(store, req, reply, freshId, now);
    if r.Ok? {
      var q := r.value;
      var s' := store[freshId := q];
      assert forall k :: k in store ==> store[k].sourceId != q.sourceId;
      forall a, b | a in s' && b in s' && s'[a].sourceId == s'[b].sourceId ensures a == b {
        if a != freshId && b != freshId {
          assert store[a].sourceId == store[b].sourceId;
        }
      }
    }
  }

  // ---- Update --------------------------------------------------------------

  /** A malformed id is refused with 400 whatever the store holds: the id is
      validated before any lookup. An unknown id gets 404. */
  lemma UpdateRejectsBadIds(store: map<string, Query>, id: string, req: UpdateRequest, now: nat)
    ensures !IsObjectId(id) ==> UpdateOutcome(store, id, req, now) == Err(InvalidInput)
    ensures IsObjectId(id) && CanonicalId(id) !in store ==> UpdateOutcome(store, id, req, now) == Err(NotFound)
    ensures UpdateOutcome(store, id, req, now).Err? ==> StoreAfterUpdate(store, id, req, now) == store
  {
  }

  /** The lookup ignores the case of the id's hex letters: any spelling of
      a stored id finds that query and gets the outcome the stored spelling
      gets, and it updates the same entry of the store. */
  lemma AnySpellingSameOutcome(store: map<string, Query>, id: string, req: UpdateRequest, now: nat)
    requires IsObjectId(id)
    ensures UpdateOutcome(store, id, req, now) == UpdateOutcome(store, CanonicalId(id), req, now)
    ensures StoreAfterUpdate(store, id, req, now) == StoreAfterUpdate(store, CanonicalId(id), req, now)
    ensures CanonicalId(id) in store ==> UpdateOutcome(store, id, req, now) != Err(NotFound)
  {
    CanonicalIdKeys(id, id);
    CanonicalIdKeys(CanonicalId(id), CanonicalId(id));
  }

  /** A known id fails only when the requested status is not one of the five
      names; an empty or unchanged status never fails. */
  lemma UpdateSucceedsIff(store: map<string, Query>, id: string, req: UpdateRequest, now: nat)
    requires IsObjectId(id) && CanonicalId(id) in store
    ensures UpdateOutcome(store, id, req, now).Ok? <==>
              (ChangesStatus(store[CanonicalId(id)], req) ==> ParseStatus(req.status.value).Some?)
  {
  }

  /** Every successful update pushes exactly one entry stamped `now` and
      keeps the existing entries; the fields it does not decide on stay. */
  lemma UpdateAppendsOneEntry(store: map<string, Query>, id: string, req: UpdateRequest, now: nat)
    requires UpdateOutcome(store, id, req, now).Ok?
    ensures var q, q' := store[CanonicalId(id)], UpdateOutcome(store, id, req, now).value;
      && q'.history == q.history + [PlannedEntry(q, req, now)]
      && q'.history[|q.history|].timestamp == now
      && q'.id == q.id && q'.sourceChannel == q.sourceChannel && q'.sourceId == q.sourceId
      && q'.rawText == q.rawText && q'.autoTags == q.autoTags && q'.priority == q.priority
      && q'.createdAt == q.createdAt && q'.updatedAt == now
      && (!ChangesStatus(q, req) ==> q'.status == q.status)
      && (ChangesStatus(q, req) ==> StatusName(q'.status) == req.status.value)
      && (q'.assignedTo == if ChangesAssignee(q, req) then NewAssignee(req) else q.assignedTo)
  {
  }

  /** `firstResponseTime` is written only on New -> In Progress while unset,
      with the elapsed time since creation; `resolutionTime` only on entering
      Resolved, from any status, while unset. A recorded (non-zero) value is
      never overwritten. */
  lemma MetricsRule(store: map<string, Query>, id: string, req: UpdateRequest, now: nat)
    requires UpdateOutcome(store, id, req, now).Ok?
    ensures var q, q' := store[CanonicalId(id)], UpdateOutcome(store, id, req, now).value;
      && q'.responseMetrics.firstResponseTime ==
           (if q.status == New && StatusName(q'.status) == "In Progress"
               && !IsRecorded(q.responseMetrics.firstResponseTime)
            then Some(now - q.createdAt) else q.responseMetrics.firstResponseTime)
      && q'.responseMetrics.resolutionTime ==
           (if q.status != Resolved && q'.status == Resolved && !IsRecorded(q.responseMetrics.resolutionTime)
            then Some(now - q.createdAt) else q.responseMetrics.resolutionTime)
      && (IsRecorded(q.responseMetrics.firstResponseTime) ==>
            q'.responseMetrics.firstResponseTime == q.responseMetrics.firstResponseTime)
      && (IsRecorded(q.responseMetrics.resolutionTime) ==>
            q'.responseMetrics.resolutionTime == q.responseMetrics.resolutionTime)
  {
    var q, q' := store[CanonicalId(id)], UpdateOutcome(store, id, req, now).value;
    if ChangesStatus(q, req) {
      assert ParseStatus(req.status.value) == Some(q'.status);
    }
    assert StatusName(q'.status) == "In Progress" <==> q'.status == InProgress;
    assert q'.status == Resolved <==> StatusName(q'.status) == "Resolved";
  }

  /** When the assignee changes, the entry's action and details come from
      the assignment alone: a status action and a metric note recorded in the
      same call are discarded. */
  lemma AssignmentOverridesEntry(q: Query, req: UpdateRequest, now: nat)
    requires ChangesAssignee(q, req)
    ensures PlannedEntry(q, req, now).action == (if NewAssignee(req) == Unassigned then "Unassigned" else "Assigned")
    ensures PlannedEntry(q, req, now).details ==
              (if NewAssignee(req) == Unassigned then "Unassigned" else "Assigned to: " + NewAssignee(req))
    ensures PlannedFields(q, req, now).firstResponseTime.Some? == RecordsFirstResponse(q, req)
  {
  }

  /** A status change without an assignee change records `Status Changed`
      whatever action the client sent, and keeps the client's details (or
      the default ones), extended by a note exactly when a metric is
      recorded. */
  lemma StatusChangeEntry(q: Query, req: UpdateRequest, now: nat, clientAction: Option<string>)
    requires ChangesStatus(q, req) && !ChangesAssignee(q, req)
    ensures PlannedEntry(q, req, now).action == StatusChangedAction
    ensures PlannedEntry(q, req.(action := clientAction), now) == PlannedEntry(q, req, now)
    ensures OrElse(req.details, DefaultDetails) <= PlannedEntry(q, req, now).details
    ensures PlannedEntry(q, req, now).details == OrElse(req.details, DefaultDetails)
            <==> !RecordsFirstResponse(q, req) && !RecordsResolution(q, req)
  {
  }

  /** With no status and no assignee change the entry is still pushed, with
      the client's action and details or `Update` and the default details,
      and nothing but the history and `updatedAt` changes. */
  lemma NoChangeStillRecorded(store: map<string, Query>, id: string, req: UpdateRequest, now: nat)
    requires IsObjectId(id) && CanonicalId(id) in store
    requires !ChangesStatus(store[CanonicalId(id)], req) && !ChangesAssignee(store[CanonicalId(id)], req)
    ensures var q := store[CanonicalId(id)];
      UpdateOutcome(store, id, req, now) ==
        Ok(q.(history := q.history + [HistoryEntry(now, OrElse(req.action, DefaultAction),
                                                   OrElse(req.details, DefaultDetails))],
              updatedAt := now))
  {
  }

  /** The raw `assignedTo` is compared before normalisation: an empty string
      on an already unassigned query still counts as a change and records an
      `Unassigned` entry. */
  lemma EmptyAssigneeOnUnassigned(q: Query, req: UpdateRequest, now: nat)
    requires q.assignedTo == Unassigned && req.assignedTo == Some("")
    ensures ChangesAssignee(q, req)
    ensures PlannedFields(q, req, now).assignedTo == Some(Unassigned)
    ensures PlannedEntry(q, req, now).action == "Unassigned" && PlannedEntry(q, req, now).details == "Unassigned"
  {
  }

  /** Update keeps the collection's invariant. */
  lemma UpdatePreservesInvariant(store: map<string, Query>, id: string, req: UpdateRequest, now: nat)
    requires StoreInvariant(store)
    ensures StoreInvariant(StoreAfterUpdate(store, id, req, now))
  {
    var r := UpdateOutcome(store, id, req, now);
    if r.Ok? {
      var q, q' := store[CanonicalId(id)], r.value;
      UpdateAppendsOneEntry(store, id, req, now);
      assert q'.history[0] == q.history[0];
      assert q'.assignedTo != "";
      var s' := store[CanonicalId(id) := q'];
      forall a, b | a in s' && b in s' && s'[a].sourceId == s'[b].sourceId ensures a == b {
        assert store[a].sourceId == s'[a].sourceId && store[b].sourceId == s'[b].sourceId;
      }
    }
  }

  /** A status change out of New into In Progress ten seconds after creation,
      with the status dropdown's payload, records a first response time of
      10000 ms and one entry carrying the note. */
  lemma FirstResponseScenario(store: map<string, Query>, id: string, now: nat)
    requires StoreInvariant(store) && IsObjectId(id) && CanonicalId(id) in store
    requires store[CanonicalId(id)].status == New && store[CanonicalId(id)].responseMetrics == NoMetrics
    requires now == store[CanonicalId(id)].createdAt + 10000
    ensures var req := UpdateRequest(Some("In Progress"), None, Some(StatusChangedAction), Some("Status set to In Progress"));
            var q, r := store[CanonicalId(id)], UpdateOutcome(store, id, req, now);
      && r.Ok?
      && r.value.status == InProgress
      && r.value.responseMetrics == ResponseMetrics(Some(10000), None)
      && r.value.history == q.history +
           [HistoryEntry(now, StatusChangedAction, "Status set to In Progress" + FirstResponseNote(10000))]
  {
    var req := UpdateRequest(Some("In Progress"), None, Some(StatusChangedAction), Some("Status set to In Progress"));
    var q := store[CanonicalId(id)];
    assert StatusName(q.status) == "New";
    assert ChangesStatus(q, req) && RecordsFirstResponse(q, req) && !RecordsResolution(q, req);
    assert ParseStatus("In Progress") == Some(InProgress);
  }

  /** Resolving twice: the second call changes neither the status nor the
      resolution time, yet still pushes an entry with the client's action. */
  lemma ResolveTwice(store: map<string, Query>, id: string, req: UpdateRequest, now1: nat, now2: nat)
    requires IsObjectId(id) && CanonicalId(id) in store && store[CanonicalId(id)].status != Resolved
    requires req.status == Some("Resolved") && req.assignedTo.None?
    ensures var s1 := StoreAfterUpdate(store, id, req, now1);
            var r2 := UpdateOutcome(s1, id, req, now2);
      && UpdateOutcome(store, id, req, now1).Ok?
      && s1[CanonicalId(id)].status == Resolved
      && s1[CanonicalId(id)].responseMetrics.resolutionTime ==
           (if IsRecorded(store[CanonicalId(id)].responseMetrics.resolutionTime) then store[CanonicalId(id)].responseMetrics.resolutionTime
            else Some(now1 - store[CanonicalId(id)].createdAt))
      && r2.Ok?
      && r2.value.status == Resolved
      && r2.value.responseMetrics == s1[CanonicalId(id)].responseMetrics
      && r2.value.history == s1[CanonicalId(id)].history + [HistoryEntry(now2, OrElse(req.action, DefaultAction),
                                                            OrElse(req.details, DefaultDetails))]
  {
    var s1 := StoreAfterUpdate(store, id, req, now1);
    assert ParseStatus("Resolved") == Some(Resolved);
    assert UpdateOutcome(store, id, req, now1).Ok?;
    assert s1[CanonicalId(id)].status == Resolved;
    assert !ChangesStatus(s1[CanonicalId(id)], req);
  }

  /** Two updates on one query, applied one after the other as the store's
      atomic steps: a resolution and an assignment both land, whichever
      comes first, with one entry each. */
  lemma ResolveAndAssignCommute(store: map<string, Query>, id: string, agent: string, now1: nat, now2: nat)
    requires IsObjectId(id) && CanonicalId(id) in store && agent != "" && agent != store[CanonicalId(id)].assignedTo
    ensures var resolve := UpdateRequest(Some("Resolved"), None, None, None);
            var assign := UpdateRequest(None, Some(agent), None, None);
            var ra := StoreAfterUpdate(StoreAfterUpdate(store, id, resolve, now1), id, assign, now2);
            var ar := StoreAfterUpdate(StoreAfterUpdate(store, id, assign, now1), id, resolve, now2);
      && ra[CanonicalId(id)].status == Resolved && ra[CanonicalId(id)].assignedTo == agent
      && ar[CanonicalId(id)].status == Resolved && ar[CanonicalId(id)].assignedTo == agent
      && |ra[CanonicalId(id)].history| == |store[CanonicalId(id)].history| + 2
      && |ar[CanonicalId(id)].history| == |store[CanonicalId(id)].history| + 2
  {
    assert ParseStatus("Resolved") == Some(Resolved);
  }

  // ---- Any sequence of requests ---------------------------------------------

  /** One request handled as one atomic step on the store. */
  datatype Request =
    | IngestCall(ingest: IngestRequest, reply: ClassifierReply, freshId: string, at: nat)
    | UpdateCall(id: string, update: UpdateRequest, at: nat)

  function Step(store: map<string, Query>, r: Request): map<string, Query> {
    match r
    case IngestCall(req, reply, freshId, now) => StoreAfterIngest(store, req, reply, freshId, now)
    case UpdateCall(id, req, now) => StoreAfterUpdate(store, id, req, now)
  }

  function Run(store: map<string, Query>, rs: seq<Request>): map<string, Query>
    decreases |rs|
  {
    if rs == [] then store else Run(Step(store, rs[0]), rs[1..])
  }

  /** The ids a request sequence could create are ObjectIds. */
  predicate FreshIdsValid(rs: seq<Request>) {
    forall i :: 0 <= i < |rs| && rs[i].IngestCall? ==> IsCanonicalId(rs[i].freshId)
  }

  /** How a stored query may evolve: same identity, text, tags and priority,
      the old history a prefix of the new, and recorded metrics kept. */
  predicate Evolves(q: Query, q': Query) {
    && q'.id == q.id && q'.sourceChannel == q.sourceChannel && q'.sourceId == q.sourceId
    && q'.rawText == q.rawText && q'.autoTags == q.autoTags && q'.priority == q.priority
    && q'.createdAt == q.createdAt
    && q.history <= q'.history
    && (IsRecorded(q.responseMetrics.firstResponseTime) ==>
          q'.responseMetrics.firstResponseTime == q.responseMetrics.firstResponseTime)
    && (IsRecorded(q.responseMetrics.resolutionTime) ==>
          q'.responseMetrics.resolutionTime == q.responseMetrics.resolutionTime)
  }

  /** Each request lets every stored query evolve and never removes one. */
  lemma StepEvolves(store: map<string, Query>, r: Request, id: string)
    requires id in store
    ensures id in Step(store, r) && Evolves(store[id], Step(store, r)[id])
  {
    match r
    case IngestCall(req, reply, freshId, now) =>
    case UpdateCall(uid, req, now) =>
      if CanonicalId(uid) == id && UpdateOutcome(store, uid, req, now).Ok? {
        UpdateAppendsOneEntry(store, uid, req, now);
        MetricsRule(store, uid, req, now);
      }
  }

  /** Over any sequence of requests every stored query stays, its history
      only grows (old entries kept in order), its identity, text, tags and
      priority never change, and a recorded metric is never overwritten. */
  lemma {:induction false} RunEvolves(store: map<string, Query>, rs: seq<Request>, id: string)
    requires id in store
    ensures id in Run(store, rs) && Evolves(store[id], Run(store, rs)[id])
    decreases |rs|
  {
    if rs != [] {
      var s1 := Step(store, rs[0]);
      StepEvolves(store, rs[0], id);
      RunEvolves(s1, rs[1..], id);
    }
  }

  /** Over any sequence of requests the collection keeps its invariant. */
  lemma {:induction false} RunPreservesInvariant(store: map<string, Query>, rs: seq<Request>)
    requires StoreInvariant(store) && FreshIdsValid(rs)
    ensures StoreInvariant(Run(store, rs))
    decreases |rs|
  {
    if rs != [] {
      var r := rs[0];
      if r.IngestCall? {
        assert IsCanonicalId(rs[0].freshId);
        IngestPreservesInvariant(store, r.ingest, r.reply, r.freshId, r.at);
      } else {
        UpdatePreservesInvariant(store, r.id, r.update, r.at);
      }
      assert FreshIdsValid(rs[1..]) by {
        forall i | 0 <= i < |rs[1..]| && rs[1..][i].IngestCall? ensures IsCanonicalId(rs[1..][i].freshId) {
          assert rs[1..][i] == rs[i + 1];
        }
      }
      RunPreservesInvariant(Step(store, rs[0]), rs[1..]);
    }
  }
}
