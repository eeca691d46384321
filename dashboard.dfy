/** The dashboard's client-side list of queries: the list transforms applied
    on the `newQuery` and `queryUpdated` broadcasts and on an update's
    response, the three view filters, and the update payloads the assignee
    and status dropdowns send. */
module Dashboard {
  import opened Wrappers
  import opened QueryModel
  import opened QueryRoutes
  import opened QueryService

  const CurrentAgent := "Agent Alpha"
  const MockAgents := ["Agent Alpha", "Agent Beta", "Agent Charlie"]
  const StatusOptions := ["New", "In Progress", "On Hold", "Escalated", "Resolved"]

  const AllQueriesView := "All Queries"
  const UnassignedView := "Unassigned"
  const MyQueriesView := "My Queries"
  const InitialView := MyQueriesView

  /** `list.map(q => q._id === id ? replacement : q)`. */
  function ReplaceById(s: seq<Query>, id: string, replacement: Query): (r: seq<Query>)
    ensures |r| == |s|
    ensures forall i :: 0 <= i < |s| ==> r[i] == (if s[i].id == id then replacement else s[i])
  {
    if s == [] then []
    else [if s[0].id == id then replacement else s[0]] + ReplaceById(s[1..], id, replacement)
  }

  /** `list.filter(q => q.assignedTo === name)`. */
  function WithAssignee(s: seq<Query>, name: string): (r: seq<Query>)
    ensures forall q :: q in r <==> q in s && q.assignedTo == name
    ensures |r| <= |s|
  {
    if s == [] then []
    else (if s[0].assignedTo == name then [s[0]] else []) + WithAssignee(s[1..], name)
  }

  /** `filteredQueries`: the Unassigned view, the current agent's view, and
      the whole list for any other view. */
  function ViewOf(s: seq<Query>, view: string): seq<Query> {
    if view == UnassignedView then WithAssignee(s, Unassigned)
    else if view == MyQueriesView then WithAssignee(s, CurrentAgent)
    else s
  }

  /** `r` is `s` with some elements left out, the rest in their order. */
  predicate IsSubsequence<T(==)>(r: seq<T>, s: seq<T>)
    decreases |s|
  {
    if r == [] then true
    else if s == [] then false
    else if r[0] == s[0] then IsSubsequence(r[1..], s[1..])
    else IsSubsequence(r, s[1..])
  }

  /** The assignee dropdown's payload for a selected value; the Unassigned
      option's value is the empty string. */
  function AssigneePayload(value: string): UpdateRequest {
    UpdateRequest(None, Some(value), Some("Assigned"), Some("Assigned to " + (if value == "" then Unassigned else value)))
  }

  /** The status dropdown's payload for a selected status name. */
  function StatusPayload(value: string): UpdateRequest {
    UpdateRequest(Some(value), None, Some(StatusChangedAction), Some("Status set to " + value))
  }

  /** Every cached query is the stored version of its id. */
  predicate Mirrors(s: seq<Query>, store: map<string, Query>) {
    forall i :: 0 <= i < |s| ==> s[i].id in store && store[s[i].id] == s[i]
  }

  /** The response of `GET /` for a store: every stored query once, newest
      first. */
  predicate IsRecencyListing(s: seq<Query>, store: map<string, Query>) {
    && Mirrors(s, store)
    && |s| == |store|
    && (forall i, j :: 0 <= i < j < |s| ==> s[i].id != s[j].id)
    && (forall i, j :: 0 <= i < j < |s| ==> s[i].createdAt >= s[j].createdAt)
  }

  class DashboardState {
    var queries: seq<Query>
    var loading: bool
    var currentView: string

    constructor ()
      ensures queries == [] && loading && currentView == InitialView
    {
      queries := [];
      loading := true;
      currentView := InitialView;
    }

    /** `fetchQueries`: the response replaces the list; on an error the list
        stays. Either way loading ends. */
    method FetchCompleted(response: Option<seq<Query>>)
      modifies this
      ensures queries == if response.Some? then response.value else old(queries)
      ensures !loading && currentView == old(currentView)
    {
      if response.Some? {
        queries := response.value;
      }
      loading := false;
    }

    /** The `newQuery` broadcast prepends the query. */
    method OnNewQuery(q: Query)
      modifies this
      ensures queries == [q] + old(queries)
      ensures loading == old(loading) && currentView == old(currentView)
    {
      queries := [q] + queries;
    }

    /** The `queryUpdated` broadcast replaces every element with its `_id`. */
    method OnQueryUpdated(q: Query)
      modifies this
      ensures queries == ReplaceById(old(queries), q.id, q)
      ensures loading == old(loading) && currentView == old(currentView)
    {
      queries := ReplaceById(queries, q.id, q);
    }

    /** `handleUpdate(queryId, updateData)`: post the update to the router;
        on success replace the element whose `_id` is `queryId` by the
        response, on an error leave the list untouched. */
    method HandleUpdate(router: QueryRouter, queryId: string, updateData: UpdateRequest, now: nat)
      returns (response: Result<Query, Failure>)
      requires router.Valid()
      modifies this, router
      ensures router.Valid()
      ensures response == UpdateOutcome(old(router.queries), queryId, updateData, now)
      ensures router.queries == StoreAfterUpdate(old(router.queries), queryId, updateData, now)
      ensures queries == if response.Ok? then ReplaceById(old(queries), queryId, response.value) else old(queries)
      ensures router.events == if response.Ok? then old(router.events) + [QueryUpdated(response.value)] else old(router.events)
      ensures router.classifierRequests == old(router.classifierRequests)
      ensures loading == old(loading) && currentView == old(currentView)
    {
      response := router.Update(queryId, updateData, now);
      if response.Ok? {
        queries := ReplaceById(queries, queryId, response.value);
      }
    }

    /** The view selector. */
    method SetView(view: string)
      modifies this
      ensures currentView == view && queries == old(queries) && loading == old(loading)
    {
      currentView := view;
    }
  }

  // ---- Properties of the list transforms ------------------------------------

  /** Replacing an id that no element carries changes nothing. */
  lemma ReplaceAbsent(s: seq<Query>, id: string, replacement: Query)
    requires forall i :: 0 <= i < |s| ==> s[i].id != id
    ensures ReplaceById(s, id, replacement) == s
  {
  }

  /** Applying the same replacement twice is applying it once: the update
      response and the broadcast of the same update leave the same list. */
  lemma ReplaceIdempotent(s: seq<Query>, replacement: Query)
    ensures ReplaceById(ReplaceById(s, replacement.id, replacement), replacement.id, replacement)
            == ReplaceById(s, replacement.id, replacement)
  {
  }

  /** Filtering distributes over concatenation. */
  lemma {:induction false} WithAssigneeAppend(a: seq<Query>, b: seq<Query>, name: string)
    ensures WithAssignee(a + b, name) == WithAssignee(a, name) + WithAssignee(b, name)
    decreases |a|
  {
    if a != [] {
      var head := if a[0].assignedTo == name then [a[0]] else [];
      assert (a + b)[0] == a[0] && (a + b)[1..] == a[1..] + b;
      assert WithAssignee(a + b, name) == head + WithAssignee(a[1..] + b, name);
      WithAssigneeAppend(a[1..], b, name);
      assert WithAssignee(a, name) == head + WithAssignee(a[1..], name);
      assert head + (WithAssignee(a[1..], name) + WithAssignee(b, name))
          == (head + WithAssignee(a[1..], name)) + WithAssignee(b, name);
    } else {
      assert a + b == b;
    }
  }

  /** The filter keeps every copy of each selected query and no copy of
      the others. */
  lemma {:induction false} WithAssigneeCounts(s: seq<Query>, name: string)
    ensures forall q :: multiset(WithAssignee(s, name))[q] == if q.assignedTo == name then multiset(s)[q] else 0
    decreases |s|
  {
    if s != [] {
      WithAssigneeCounts(s[1..], name);
      var head := if s[0].assignedTo == name then [s[0]] else [];
      assert s == [s[0]] + s[1..];
      assert multiset(WithAssignee(s, name)) == multiset(head) + multiset(WithAssignee(s[1..], name));
    }
  }

  /** A view keeps the relative order of the list. */
  lemma {:induction false} WithAssigneeIsSubsequence(s: seq<Query>, name: string)
    ensures IsSubsequence(WithAssignee(s, name), s)
    decreases |s|
  {
    if s != [] {
      WithAssigneeIsSubsequence(s[1..], name);
      var w := WithAssignee(s[1..], name);
      if s[0].assignedTo != name {
        assert WithAssignee(s, name) == w;
        if w != [] {
          assert w[0] in w && w[0] != s[0];
        }
      }
    }
  }

  /** Each view holds exactly the queries it selects, every copy of each,
      in list order; All Queries, like any other view, is the whole list. */
  lemma ViewContents(s: seq<Query>, view: string)
    ensures IsSubsequence(ViewOf(s, view), s)
    ensures view == UnassignedView ==> forall q :: q in ViewOf(s, view) <==> q in s && q.assignedTo == Unassigned
    ensures view == UnassignedView ==>
              forall q :: multiset(ViewOf(s, view))[q] == if q.assignedTo == Unassigned then multiset(s)[q] else 0
    ensures view == MyQueriesView ==> forall q :: q in ViewOf(s, view) <==> q in s && q.assignedTo == CurrentAgent
    ensures view == MyQueriesView ==>
              forall q :: multiset(ViewOf(s, view))[q] == if q.assignedTo == CurrentAgent then multiset(s)[q] else 0
    ensures view != UnassignedView && view != MyQueriesView ==> ViewOf(s, view) == s
    ensures ViewOf(s, AllQueriesView) == s
  {
    if view == UnassignedView {
      WithAssigneeIsSubsequence(s, Unassigned);
      WithAssigneeCounts(s, Unassigned);
    } else if view == MyQueriesView {
      WithAssigneeIsSubsequence(s, CurrentAgent);
      WithAssigneeCounts(s, CurrentAgent);
    } else {
      SubsequenceReflexive(s);
    }
  }

  lemma {:induction false} SubsequenceReflexive<T>(s: seq<T>)
    ensures IsSubsequence(s, s)
    decreases |s|
  {
    if s != [] {
      SubsequenceReflexive(s[1..]);
    }
  }

  /** After a `newQuery` broadcast a view shows the new query first when it
      selects it, followed by what it showed before. */
  lemma ViewAfterNewQuery(s: seq<Query>, q: Query, view: string)
    ensures ViewOf([q] + s, view) == ViewOf([q], view) + ViewOf(s, view)
  {
    WithAssigneeAppend([q], s, Unassigned);
    WithAssigneeAppend([q], s, CurrentAgent);
  }

  // ---- The cache and the router ---------------------------------------------

  /** A `queryUpdated` broadcast keeps the mirror: the list matches the
      store after the update. The broadcast query carries the stored,
      lower-case id; the update's own response replaces by the id the
      dashboard posted, which is that same id when it comes from the list. */
  lemma UpdateKeepsMirror(s: seq<Query>, store: map<string, Query>, id: string, req: UpdateRequest, now: nat)
    requires StoreInvariant(store) && Mirrors(s, store)
    requires UpdateOutcome(store, id, req, now).Ok?
    ensures var q := UpdateOutcome(store, id, req, now).value;
      q.id == CanonicalId(id) && Mirrors(ReplaceById(s, q.id, q), StoreAfterUpdate(store, id, req, now))
  {
    var key := CanonicalId(id);
    var q := UpdateOutcome(store, id, req, now).value;
    var s' := StoreAfterUpdate(store, id, req, now);
    assert q.id == store[key].id == key;
    assert s' == store[key := q];
    var r := ReplaceById(s, key, q);
    forall i | 0 <= i < |r| ensures r[i].id in s' && s'[r[i].id] == r[i] {
      if s[i].id != key {
        assert r[i] == s[i];
      }
    }
  }

  /** A `newQuery` broadcast keeps the mirror. */
  lemma IngestKeepsMirror(s: seq<Query>, store: map<string, Query>, req: IngestRequest,
                          reply: ClassifierReply, freshId: string, now: nat)
    requires Mirrors(s, store)
    requires IngestOutcome(store, req, reply, freshId, now).Ok?
    ensures var q := IngestOutcome(store, req, reply, freshId, now).value;
      Mirrors([q] + s, StoreAfterIngest(store, req, reply, freshId, now))
  {
    var q := IngestOutcome(store, req, reply, freshId, now).value;
    var s' := StoreAfterIngest(store, req, reply, freshId, now);
    forall i | 0 <= i < |[q] + s| ensures ([q] + s)[i].id in s' && s'[([q] + s)[i].id] == ([q] + s)[i] {
      if i > 0 {
        assert ([q] + s)[i] == s[i - 1];
        assert s[i - 1].id != freshId;
      }
    }
  }

  /** A newly ingested query is at least as recent as those listed before
      it, so prepending keeps the listing newest first, when the clock does
      not run backwards. */
  lemma IngestKeepsRecencyOrder(s: seq<Query>, store: map<string, Query>, req: IngestRequest,
                                reply: ClassifierReply, freshId: string, now: nat)
    requires IsRecencyListing(s, store)
    requires IngestOutcome(store, req, reply, freshId, now).Ok?
    requires forall k :: k in store ==> store[k].createdAt <= now
    ensures var q := IngestOutcome(store, req, reply, freshId, now).value;
      IsRecencyListing([q] + s, StoreAfterIngest(store, req, reply, freshId, now))
  {
    var q := IngestOutcome(store, req, reply, freshId, now).value;
    var s' := StoreAfterIngest(store, req, reply, freshId, now);
    IngestKeepsMirror(s, store, req, reply, freshId, now);
    assert |s'| == |store| + 1;
    forall i, j | 0 <= i < j < |[q] + s| ensures ([q] + s)[i].createdAt >= ([q] + s)[j].createdAt {
      if i == 0 {
        assert ([q] + s)[j] == s[j - 1];
        assert s[j - 1].id in store;
      }
    }
    forall i, j | 0 <= i < j < |[q] + s| ensures ([q] + s)[i].id != ([q] + s)[j].id {
      if i == 0 {
        assert s[j - 1].id in store;
      }
    }
  }

  /** The assignee dropdown offers Unassigned (value `""`) and the mock
      agents. Any choice succeeds and leaves the query assigned to it. The
      Unassigned option always records an `Unassigned` entry, never the
      client's text; a different agent records the server's
      `Assigned to: <agent>`; re-choosing the current agent is no change, so
      the client's own `Assigned to <agent>` (no colon) is recorded. */
  lemma AssigneeOption(store: map<string, Query>, id: string, value: string, now: nat)
    requires StoreInvariant(store) && IsObjectId(id) && CanonicalId(id) in store
    requires value in [""] + MockAgents
    ensures var q, r := store[CanonicalId(id)], UpdateOutcome(store, id, AssigneePayload(value), now);
      && r.Ok?
      && r.value.assignedTo == (if value == "" then Unassigned else value)
      && (value == "" ==> r.value.history[|r.value.history| - 1] == HistoryEntry(now, "Unassigned", "Unassigned"))
      && (value != "" && value != q.assignedTo ==>
            r.value.history[|r.value.history| - 1] == HistoryEntry(now, "Assigned", "Assigned to: " + value))
      && (value != "" && value == q.assignedTo ==>
            r.value.history[|r.value.history| - 1] == HistoryEntry(now, "Assigned", "Assigned to " + value))
  {
    assert store[CanonicalId(id)].assignedTo != "";
    assert value != Unassigned;
  }

  /** Choosing a status in the dropdown sets it; the entry's action is
      `Status Changed` whether or not the status was already that one. */
  lemma StatusOption(store: map<string, Query>, id: string, st: Status, now: nat)
    requires IsObjectId(id) && CanonicalId(id) in store
    ensures var r := UpdateOutcome(store, id, StatusPayload(StatusName(st)), now);
      && r.Ok?
      && r.value.status == st
      && r.value.history[|r.value.history| - 1].action == StatusChangedAction
  {
    assert ParseStatus(StatusName(st)) == Some(st);
  }

  /** The status dropdown offers exactly the five stored names. */
  lemma StatusOptionsAreStatuses()
    ensures forall t :: t in StatusOptions <==> ParseStatus(t).Some?
  {
    forall t | ParseStatus(t).Some? ensures t in StatusOptions {
      assert StatusName(ParseStatus(t).value) == t;
    }
  }
}
