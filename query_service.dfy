/** The query router as a stateful service: the collection of stored
    queries, the sequence of socket broadcasts it has emitted, and the texts
    it has sent to the classification service. Each route handler is one
    atomic step on this state. */
module QueryService {
  import opened Wrappers
  import opened Text
  import opened QueryModel
  import opened QueryRoutes
  import Lifecycle

  /** A socket broadcast: `newQuery` or `queryUpdated`, with the full query. */
  datatype Event = NewQuery(query: Query) | QueryUpdated(query: Query)

  class QueryRouter {
    /** The queries collection, keyed by `_id`. */
    var queries: map<string, Query>
    /** Every broadcast emitted so far, oldest first. */
    var events: seq<Event>
    /** Every text sent to the classification service, oldest first. */
    var classifierRequests: seq<string>

    ghost predicate Valid()
      reads this
    {
      StoreInvariant(queries)
    }

    constructor ()
      ensures Valid()
      ensures queries == map[] && events == [] && classifierRequests == []
    {
      queries := map[];
      events := [];
      classifierRequests := [];
    }

    /** `POST /ingest`. `reply` is what the classification call yields and
        `freshId` the ObjectId Mongoose assigns to the new document. The
        classifier is consulted only when there is text; the broadcast
        follows a successful save and nothing else. */
    method Ingest(req: IngestRequest, reply: ClassifierReply, freshId: string, now: nat)
      returns (res: Result<Query, Failure>)
      requires Valid() && IsCanonicalId(freshId)
      modifies this
      ensures Valid()
      ensures res == IngestOutcome(old(queries), req, reply, freshId, now)
      ensures queries == StoreAfterIngest(old(queries), req, reply, freshId, now)
      ensures events == if res.Ok? then old(events) + [NewQuery(res.value)] else old(events)
      ensures classifierRequests ==
                if Truthy(req.rawText) then old(classifierRequests) + [req.rawText.value]
                else old(classifierRequests)
    {
      Lifecycle.IngestPreservesInvariant(queries, req, reply, freshId, now);
      if !Truthy(req.rawText) {
        return Err(InvalidInput);
      }
      var rawText := req.rawText.value;
      var tags: seq<string> := [];
      var priority := "Medium";
      classifierRequests := classifierRequests + [rawText];
      match reply {
        case Replied(replyTags, replyPriority) =>
          tags := if replyTags.Some? then replyTags.value else [ClassificationFailed];
          priority := OrElse(replyPriority, "Medium");
        case CallFailed =>
          tags := [ClassificationFailed];
          priority := "Low";
      }
      var sourceId := DerivedSourceId(req.sourceChannel, req.sourceId, now);
      var doc := NewDocument(freshId, req.sourceChannel, sourceId, rawText, tags, priority,
                             IngestAction, IngestDetails(req.sourceChannel), now);
      if doc.None? || freshId in queries || SourceIdTaken(queries, sourceId) {
        return Err(ServerError);
      }
      queries := queries[freshId := doc.value];
      events := events + [NewQuery(doc.value)];
      res := Ok(doc.value);
    }

    /** `POST /:id/update`: validate the id, look the query up, build the
        fields and the entry, then apply `$set` and `$push` together and
        broadcast the updated query. */
    method Update(id: string, req: UpdateRequest, now: nat) returns (res: Result<Query, Failure>)
      requires Valid()
      modifies this
      ensures Valid()
      ensures res == UpdateOutcome(old(queries), id, req, now)
      ensures queries == StoreAfterUpdate(old(queries), id, req, now)
      ensures events == if res.Ok? then old(events) + [QueryUpdated(res.value)] else old(events)
      ensures classifierRequests == old(classifierRequests)
    {
      Lifecycle.UpdatePreservesInvariant(queries, id, req, now);
      if !IsObjectId(id) {
        return Err(InvalidInput);
      }
      var key := CanonicalId(id);
      if key !in queries {
        return Err(NotFound);
      }
      var query := queries[key];
      var updatedFields, historyEntry := BuildUpdate(query, req, now);
      var updated := ApplyUpdate(query, updatedFields, historyEntry, now);
      if updated.None? {
        return Err(ServerError);
      }
      queries := queries[key := updated.value];
      events := events + [QueryUpdated(updated.value)];
      res := Ok(updated.value);
    }
  }
}
