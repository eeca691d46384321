/** The Query document of the inbox (the Mongoose schema `QuerySchema`): its
    enumerations, its defaults, the validation `save()` applies, the
    well-formedness every stored query keeps, and the store-wide uniqueness
    of `sourceId`. */
module QueryModel {
  import opened Wrappers

  /** The nine channels a query can come from. */
  datatype SourceChannel =
    | Email | Twitter | Facebook | Manual | Simulated
    | TwitterDM | FacebookMessenger | CommunityForum | InternalFeedback

  function ChannelName(c: SourceChannel): string {
    match c
    case Email => "Email"
    case Twitter => "Twitter"
    case Facebook => "Facebook"
    case Manual => "Manual"
    case Simulated => "Simulated"
    case TwitterDM => "Twitter DM"
    case FacebookMessenger => "Facebook Messenger"
    case CommunityForum => "Community Forum"
    case InternalFeedback => "Internal Feedback"
  }

  /** The schema's enum check on `sourceChannel`: exactly the nine names. */
  function ParseChannel(t: string): (r: Option<SourceChannel>)
    ensures r.Some? ==> ChannelName(r.value) == t
    ensures forall c :: ChannelName(c) == t ==> r == Some(c)
  {
    if t == "Email" then Some(Email)
    else if t == "Twitter" then Some(Twitter)
    else if t == "Facebook" then Some(Facebook)
    else if t == "Manual" then Some(Manual)
    else if t == "Simulated" then Some(Simulated)
    else if t == "Twitter DM" then Some(TwitterDM)
    else if t == "Facebook Messenger" then Some(FacebookMessenger)
    else if t == "Community Forum" then Some(CommunityForum)
    else if t == "Internal Feedback" then Some(InternalFeedback)
    else None
  }

  const DefaultChannel := Simulated

  datatype Priority = Low | Medium | High | Urgent

  function PriorityName(p: Priority): string {
    match p
    case Low => "Low"
    case Medium => "Medium"
    case High => "High"
    case Urgent => "Urgent"
  }

  /** The schema's enum check on `priority`. */
  function ParsePriority(t: string): (r: Option<Priority>)
    ensures r.Some? ==> PriorityName(r.value) == t
    ensures forall p :: PriorityName(p) == t ==> r == Some(p)
  {
    if t == "Low" then Some(Low)
    else if t == "Medium" then Some(Medium)
    else if t == "High" then Some(High)
    else if t == "Urgent" then Some(Urgent)
    else None
  }


  /** The lifecycle state of a query. */
  datatype Status = New | InProgress | OnHold | Resolved | Escalated

  /** The stored spelling; note the space in "In Progress". */
  function StatusName(s: Status): string {
    match s
    case New => "New"
    case InProgress => "In Progress"
    case OnHold => "On Hold"
    case Resolved => "Resolved"
    case Escalated => "Escalated"
  }

  /** The schema's enum check on `status`. */
  function ParseStatus(t: string): (r: Option<Status>)
    ensures r.Some? ==> StatusName(r.value) == t
    ensures forall s :: StatusName(s) == t ==> r == Some(s)
  {
    if t == "New" then Some(New)
    else if t == "In Progress" then Some(InProgress)
    else if t == "On Hold" then Some(OnHold)
    else if t == "Resolved" then Some(Resolved)
    else if t == "Escalated" then Some(Escalated)
    else None
  }

  const DefaultStatus := New

  /** The sentinel assignee, and the schema's default for `assignedTo`. */
  const Unassigned := "Unassigned"

  /** One audit record; `timestamp` is milliseconds on the server clock. */
  datatype HistoryEntry = HistoryEntry(timestamp: nat, action: string, details: string)

  /** The two response metrics, elapsed milliseconds since creation;
      `None` is the schema's default `null`. */
  datatype ResponseMetrics = ResponseMetrics(firstResponseTime: Option<int>, resolutionTime: Option<int>)

  const NoMetrics := ResponseMetrics(None, None)

  /** A metric counts as recorded when it is truthy in JavaScript: present
      and not zero. */
  predicate IsRecorded(m: Option<int>) {
    m.Some? && m.value != 0
  }

  datatype Query = Query(
    id: string,
    sourceChannel: SourceChannel,
    sourceId: string,
    rawText: string,
    autoTags: seq<string>,
    priority: Priority,
    status: Status,
    assignedTo: string,
    history: seq<HistoryEntry>,
    responseMetrics: ResponseMetrics,
    createdAt: nat,
    updatedAt: nat)

  predicate IsHexDigit(c: char) {
    '0' <= c <= '9' || 'a' <= c <= 'f' || 'A' <= c <= 'F'
  }

  /** `mongoose.Types.ObjectId.isValid` on a string: 24 hexadecimal digits. */
  predicate IsObjectId(s: string) {
    |s| == 24 && forall i :: 0 <= i < |s| ==> IsHexDigit(s[i])
  }

  function LowerHexChar(c: char): char {
    if 'A' <= c <= 'F' then (c as int + 32) as char else c
  }

  /** The spelling of an id that `findById` looks up: the hexadecimal
      digits read case-insensitively, written in lower case as Mongoose
      renders every `_id`. */
  function CanonicalId(s: string): (r: string)
    ensures |r| == |s|
    ensures forall i :: 0 <= i < |s| ==> r[i] == LowerHexChar(s[i])
  {
    if s == [] then [] else [LowerHexChar(s[0])] + CanonicalId(s[1..])
  }

  /** An ObjectId as Mongoose generates and renders it: lower-case hex. */
  predicate IsCanonicalId(s: string) {
    IsObjectId(s) && forall i :: 0 <= i < |s| ==> !('A' <= s[i] <= 'F')
  }

  /** Every valid spelling of an id leads to a canonical key, a canonical
      id is its own key, and two spellings lead to the same key exactly when
      they differ only in the case of their hex letters. */
  lemma CanonicalIdKeys(a: string, b: string)
    requires IsObjectId(a) && IsObjectId(b)
    ensures IsCanonicalId(CanonicalId(a))
    ensures IsCanonicalId(a) ==> CanonicalId(a) == a
    ensures CanonicalId(a) == CanonicalId(b) <==> forall i :: 0 <= i < 24 ==> LowerHexChar(a[i]) == LowerHexChar(b[i])
  {
    if CanonicalId(a) != CanonicalId(b) {
      var i :| 0 <= i < 24 && CanonicalId(a)[i] != CanonicalId(b)[i];
      assert LowerHexChar(a[i]) != LowerHexChar(b[i]);
    }
  }

  /** The channel a creation request names passes the schema: absent (the
      default applies) or one of the nine names. */
  predicate ValidChannelInput(channel: Option<string>) {
    channel.None? || ParseChannel(channel.value).Some?
  }

  /** The document `new Query({...})` builds and `save()` accepts, or `None`
      when validation rejects it. The caller supplies the channel (possibly
      absent), the sourceId, the text, the tags, the priority name and the
      action and details of the single first history entry; the schema
      supplies everything else. */
  function NewDocument(id: string, channel: Option<string>, sourceId: string, rawText: string,
                       autoTags: seq<string>, priority: string, action: string, details: string,
                       now: nat): (r: Option<Query>)
    ensures r.Some? <==> ValidChannelInput(channel) && ParsePriority(priority).Some? && rawText != ""
    ensures r.Some? ==>
      && r.value.sourceChannel == (if channel.None? then DefaultChannel else ParseChannel(channel.value).value)
      && PriorityName(r.value.priority) == priority
      && r.value.status == DefaultStatus
      && r.value.assignedTo == Unassigned
      && r.value.responseMetrics == NoMetrics
      && r.value.history == [HistoryEntry(now, action, details)]
      && r.value.createdAt == now && r.value.updatedAt == now
      && r.value.id == id && r.value.sourceId == sourceId
      && r.value.rawText == rawText && r.value.autoTags == autoTags
  {
    if !ValidChannelInput(channel) || ParsePriority(priority).None? || rawText == "" then None
    else
      var c := if channel.None? then DefaultChannel else ParseChannel(channel.value).value;
      Some(Query(id, c, sourceId, rawText, autoTags, ParsePriority(priority).value,
                 DefaultStatus, Unassigned, [HistoryEntry(now, action, details)], NoMetrics, now, now))
  }

  const IngestAction := "Query Ingested"

  /** What every stored query satisfies: a valid lower-case id, the required text, a
      non-empty sourceId and assignee, and a history that starts with the
      ingestion entry stamped at creation time. */
  predicate WellFormed(q: Query) {
    && IsCanonicalId(q.id)
    && q.rawText != ""
    && q.sourceId != ""
    && q.assignedTo != ""
    && |q.history| >= 1
    && q.history[0].action == IngestAction
    && q.history[0].timestamp == q.createdAt
  }

  /** The collection: keyed by `_id`, every document well-formed, and the
      unique index on `sourceId`. */
  predicate StoreInvariant(store: map<string, Query>) {
    && (forall id :: id in store ==> store[id].id == id && WellFormed(store[id]))
    && (forall a, b :: a in store && b in store && store[a].sourceId == store[b].sourceId ==> a == b)
  }

  /** No channel name contains the `_` that separates a derived sourceId. */
  lemma ChannelNameHasNoUnderscore(c: SourceChannel)
    ensures '_' !in ChannelName(c)
  {
  }

  /** The three enumerations are spelled apart: distinct values, distinct names. */
  lemma NamesInjective()
    ensures forall c1, c2 :: ChannelName(c1) == ChannelName(c2) ==> c1 == c2
    ensures forall p1, p2 :: PriorityName(p1) == PriorityName(p2) ==> p1 == p2
    ensures forall s1, s2 :: StatusName(s1) == StatusName(s2) ==> s1 == s2
  {
    forall c1, c2 | ChannelName(c1) == ChannelName(c2) ensures c1 == c2 {
      assert ParseChannel(ChannelName(c1)) == Some(c1);
    }
    forall p1, p2 | PriorityName(p1) == PriorityName(p2) ensures p1 == p2 {
      assert ParsePriority(PriorityName(p1)) == Some(p1);
    }
    forall s1, s2 | StatusName(s1) == StatusName(s2) ensures s1 == s2 {
      assert ParseStatus(StatusName(s1)) == Some(s1);
    }
  }
}
