/** Which requests the API client queues, and what it reads out of their endpoints. */
module ApiClients {
  import opened Domain
  import opened TaskServer
  import opened Outbox
  import opened OutboxStores

  // ---- Endpoints ------------------------------------------------------------------------------

  function ActionName(action: Action): string
  {
    match action
    case Start => "start"
    case Complete => "complete"
    case Flag => "flag"
  }

  function NamedAction(name: string): (r: Option<Action>)
    ensures forall a :: r == Some(a) <==> name == ActionName(a)
  {
    if name == "start" then Some(Start)
    else if name == "complete" then Some(Complete)
    else if name == "flag" then Some(Flag)
    else None
  }

  const TASKS := "/tasks"

  /** An endpoint as the pattern of `getQueueMetadata` describes it; the pattern is not anchored on the left. */
  function Endpoint(prefix: string, id: string, action: Action, slash: bool): string
  {
    prefix + TASKS + "/" + id + "/" + ActionName(action) + (if slash then "/" else "")
  }

  /** A path segment that the pattern's capture group accepts. */
  predicate Segment(id: string)
  {
    id != "" && '/' !in id
  }

  /** Splits a string at its last slash. */
  function Cut(s: string): (r: Option<(string, string)>)
    ensures r.None? <==> '/' !in s
    ensures r.Some? ==> s == r.value.0 + "/" + r.value.1 && '/' !in r.value.1
  {
    if s == "" then None
    else if s[|s| - 1] == '/' then Some((s[..|s| - 1], ""))
    else
      var rest := Cut(s[..|s| - 1]);
      if rest.None? then None else Some((rest.value.0, rest.value.1 + [s[|s| - 1]]))
  }

  predicate EndsWith(s: string, tail: string)
  {
    |tail| <= |s| && s[|s| - |tail|..] == tail
  }

  /** The match without a trailing slash. */
  function MatchBody(body: string): Option<(string, Action)>
  {
    var last := Cut(body);
    if last.None? || NamedAction(last.value.1).None? then None
    else
      var middle := Cut(last.value.0);
      if middle.None? || middle.value.1 == "" || !EndsWith(middle.value.0, TASKS) then None
      else Some((middle.value.1, NamedAction(last.value.1).value))
  }

  /** The pattern match of `getQueueMetadata`, read from the right end of the endpoint. */
  function Match(endpoint: string): Option<(string, Action)>
  {
    var body := if EndsWith(endpoint, "/") then endpoint[..|endpoint| - 1] else endpoint;
    MatchBody(body)
  }

  lemma {:induction false} CutAtLast(p: string, s: string)
    requires '/' !in s
    ensures Cut(p + "/" + s) == Some((p, s))
    decreases |s|
  {
    var whole := p + "/" + s;
    if s == "" {
      assert whole[..|whole| - 1] == p;
    } else {
      var n := |s| - 1;
      assert whole[..|whole| - 1] == p + "/" + s[..n];
      CutAtLast(p, s[..n]);
      assert s == s[..n] + [s[n]];
    }
  }

  /** Parsing undoes printing, whatever stands before the path and with or without a trailing slash. */
  lemma ParsePrinted(prefix: string, id: string, action: Action, slash: bool)
    requires Segment(id)
    ensures Match(Endpoint(prefix, id, action, slash)) == Some((id, action))
  {
    var e := Endpoint(prefix, id, action, slash);
    var name := ActionName(action);
    var bare := prefix + TASKS + "/" + id + "/" + name;
    var body := if EndsWith(e, "/") then e[..|e| - 1] else e;
    assert !EndsWith(name, "/") && |name| > 0;
    assert bare[|bare| - 1] == name[|name| - 1];
    assert body == bare;
    CutAtLast(prefix + TASKS + "/" + id, name);
    CutAtLast(prefix + TASKS, id);
    assert (prefix + TASKS)[|prefix|..] == TASKS;
  }

  lemma BodyParsed(body: string) returns (prefix: string)
    requires MatchBody(body).Some?
    ensures var (id, action) := MatchBody(body).value;
            Segment(id) && body == prefix + TASKS + "/" + id + "/" + ActionName(action)
  {
    hide Cut, NamedAction;
    var last := Cut(body).value;
    var middle := Cut(last.0).value;
    prefix := middle.0[..|middle.0| - |TASKS|];
    assert middle.0 == prefix + TASKS;
    assert body == middle.0 + "/" + middle.1 + "/" + last.1;
  }

  /** What the parser accepts is an endpoint of the described form. */
  lemma PrintParsed(endpoint: string) returns (prefix: string, slash: bool)
    requires Match(endpoint).Some?
    ensures var (id, action) := Match(endpoint).value;
            Segment(id) && endpoint == Endpoint(prefix, id, action, slash)
  {
    slash := EndsWith(endpoint, "/");
    var body := if slash then endpoint[..|endpoint| - 1] else endpoint;
    assert slash ==> endpoint == body + "/";
    prefix := BodyParsed(body);
  }

  /** The parser finds an id and an action exactly when the endpoint has such a decomposition. */
  lemma MatchIff(endpoint: string, id: string, action: Action)
    ensures Match(endpoint) == Some((id, action))
            <==> Segment(id) && exists prefix, slash :: endpoint == Endpoint(prefix, id, action, slash)
  {
    if Match(endpoint) == Some((id, action)) {
      var prefix, slash := PrintParsed(endpoint);
    }
    if Segment(id) && exists prefix, slash :: endpoint == Endpoint(prefix, id, action, slash) {
      var prefix, slash :| endpoint == Endpoint(prefix, id, action, slash);
      ParsePrinted(prefix, id, action, slash);
    }
  }

  lemma SlashIsVisible(p: string, id: string, a: Action, slash: bool)
    ensures EndsWith(Endpoint(p, id, a, slash), "/") <==> slash
    ensures Endpoint(p, id, a, slash)[..|p|] == p
    ensures |Endpoint(p, id, a, slash)| == |p| + |TASKS| + 2 + |id| + |ActionName(a)| + (if slash then 1 else 0)
  {
    var e, name := Endpoint(p, id, a, slash), ActionName(a);
    assert !slash ==> e[|e| - 1] == name[|name| - 1] != '/';
    assert slash ==> e[|e| - 1] == '/';
  }

  /** The decomposition is unique in all its parts, so no choice of the pattern matcher matters. */
  lemma DecompositionUnique(p: string, id: string, a: Action, slash: bool, p': string, id': string, a': Action,
                            slash': bool)
    requires Segment(id) && Segment(id') && Endpoint(p, id, a, slash) == Endpoint(p', id', a', slash')
    ensures p == p' && id == id' && a == a' && slash == slash'
  {
    ParsePrinted(p, id, a, slash);
    ParsePrinted(p', id', a', slash');
    SlashIsVisible(p, id, a, slash);
    SlashIsVisible(p', id', a', slash');
    hide Endpoint, Match, EndsWith;
  }

  // ---- Queueing -------------------------------------------------------------------------------

  /** `decodeURIComponent`: fails on a malformed escape, leaves strings without escapes alone. */
  type Decoder = string -> Option<string>

  ghost predicate KeepsPlain(decode: Decoder)
  {
    forall s: string | '%' !in s :: decode(s) == Some(s)
  }

  datatype Payload = Payload(qrCode: string, reason: string)

  datatype FetchOutcome = Rejected | Answered(status: nat)

  datatype ApiResult = Queued | Answer(status: nat) | ApiError(status: nat) | NotQueued | FetchFailed

  function Metadata(decode: Decoder, endpoint: string): Option<(string, Action)>
  {
    var m := Match(endpoint);
    if m.None? || decode(m.value.0).None? then None else Some((decode(m.value.0).value, m.value.1))
  }

  function DraftFor(metadata: (string, Action), payload: Option<Payload>, uuid: string, now: Time): Draft
  {
    var p := if payload.Some? then payload.value else Payload("", "");
    Draft(uuid, metadata.0, metadata.1, p.qrCode, p.reason, now)
  }

  /** The endpoint is a task action's and the store takes the record. */
  predicate CanQueue(stored: seq<PendingScan>, decode: Decoder, endpoint: string, payload: Option<Payload>,
                     uuid: string, now: Time, storageOk: bool)
  {
    var metadata := Metadata(decode, endpoint);
    metadata.Some? && Stores(stored, DraftFor(metadata.value, payload, uuid, now), storageOk)
  }

  function NewRecord(key: nat, metadata: (string, Action), payload: Option<Payload>, uuid: string,
                     now: Time): PendingScan
  {
    PendingScan(key, DraftFor(metadata, payload, uuid, now), 0)
  }

  /** Only mutations that never got an answer are queued. */
  predicate MustQueue(httpMethod: string, onLine: bool, outcome: FetchOutcome)
  {
    httpMethod != "GET" && (!onLine || outcome.Rejected?)
  }

  /** The endpoint is that of a task action, and `id` is what its escaped segment decodes to. */
  ghost predicate Names(decode: Decoder, endpoint: string, id: string, action: Action)
  {
    exists prefix, raw, slash ::
      Segment(raw) && endpoint == Endpoint(prefix, raw, action, slash) && decode(raw) == Some(id)
  }

  lemma MetadataIff(decode: Decoder, endpoint: string, id: string, action: Action)
    ensures Metadata(decode, endpoint) == Some((id, action)) <==> Names(decode, endpoint, id, action)
  {
    if Metadata(decode, endpoint) == Some((id, action)) {
      var raw := Match(endpoint).value.0;
      var prefix, slash := PrintParsed(endpoint);
      assert endpoint == Endpoint(prefix, raw, action, slash) && decode(raw) == Some(id);
    }
    if Names(decode, endpoint, id, action) {
      var prefix, raw, slash :|
        Segment(raw) && endpoint == Endpoint(prefix, raw, action, slash) && decode(raw) == Some(id);
      ParsePrinted(prefix, raw, action, slash);
    }
  }

  /** The queued record of a request, field by field. */
  ghost predicate QueuedAs(r: PendingScan, key: nat, decode: Decoder, endpoint: string, payload: Option<Payload>,
                           uuid: string, now: Time)
  {
    && r.id == key && r.attempts == 0
    && r.draft.clientEventId == uuid && r.draft.clientScannedAt == now
    && Names(decode, endpoint, r.draft.taskId, r.draft.action)
    && r.draft.qrCode == (if payload.Some? then payload.value.qrCode else "")
    && r.draft.reason == (if payload.Some? then payload.value.reason else "")
  }

  lemma NewRecordFields(key: nat, decode: Decoder, endpoint: string, payload: Option<Payload>, uuid: string, now: Time)
    requires Metadata(decode, endpoint).Some?
    ensures QueuedAs(NewRecord(key, Metadata(decode, endpoint).value, payload, uuid, now),
                     key, decode, endpoint, payload, uuid, now)
  {
    var (id, action) := Metadata(decode, endpoint).value;
    MetadataIff(decode, endpoint, id, action);
    hide Names, Metadata;
  }

  /** The replay of the record asks for its action with what the payload held. */
  lemma ReplayCarriesPayload(key: nat, decode: Decoder, endpoint: string, payload: Payload, uuid: string, now: Time,
                             user: string, at: Time, scanWriteFails: bool)
    requires Metadata(decode, endpoint).Some?
    ensures var r := NewRecord(key, Metadata(decode, endpoint).value, Some(payload), uuid, now);
            CallOf(r.draft, user, at, scanWriteFails)
            == match Metadata(decode, endpoint).value.1
               case Start => Call(StartTask(user, payload.qrCode), at, scanWriteFails)
               case Complete => Call(CompleteTask(user, payload.qrCode), at, scanWriteFails)
               case Flag => Call(FlagTask(user, payload.reason), at, scanWriteFails)
  {
    hide Metadata;
  }

  /** The endpoint names a task action, and the record's event id is not stored yet. */
  ghost predicate Queueable(stored: seq<PendingScan>, decode: Decoder, endpoint: string, uuid: string)
  {
    && (exists id, action :: Names(decode, endpoint, id, action))
    && forall r | r in stored :: r.draft.clientEventId != uuid
  }

  lemma CanQueueIff(stored: seq<PendingScan>, decode: Decoder, endpoint: string, payload: Option<Payload>,
                    uuid: string, now: Time, storageOk: bool)
    ensures CanQueue(stored, decode, endpoint, payload, uuid, now, storageOk)
            <==> storageOk && Queueable(stored, decode, endpoint, uuid)
  {
    if Metadata(decode, endpoint).Some? {
      var (id, action) := Metadata(decode, endpoint).value;
      MetadataIff(decode, endpoint, id, action);
    }
    if id, action :| Names(decode, endpoint, id, action) {
      MetadataIff(decode, endpoint, id, action);
    }
    hide Names, Metadata;
  }

  class ApiClient {
    const store: OutboxStore

    constructor (store: OutboxStore)
      ensures this.store == store
    {
      this.store := store;
    }

    method QueueRequest(decode: Decoder, endpoint: string, payload: Option<Payload>, uuid: string, now: Time,
                        storageOk: bool)
      returns (queued: bool)
      requires store.Valid()
      modifies store
      ensures store.Valid()
      ensures queued == CanQueue(old(store.Contents()), decode, endpoint, payload, uuid, now, storageOk)
      ensures queued <==> storageOk && Queueable(old(store.Contents()), decode, endpoint, uuid)
      ensures queued ==>
                && |store.Contents()| == |old(store.Contents())| + 1
                && QueuedAs(store.Contents()[|old(store.Contents())|], old(store.nextKey),
                            decode, endpoint, payload, uuid, now)
      ensures store.Contents() == if queued
                then old(store.Contents())
                     + [NewRecord(old(store.nextKey), Metadata(decode, endpoint).value, payload, uuid, now)]
                else old(store.Contents())
    {
      CanQueueIff(store.Contents(), decode, endpoint, payload, uuid, now, storageOk);
      if Metadata(decode, endpoint).Some? {
        NewRecordFields(store.nextKey, decode, endpoint, payload, uuid, now);
      }
      hide Queueable, QueuedAs, Match;
      var m := Match(endpoint);
      if m.None? { return false; }
      var taskId := decode(m.value.0);
      if taskId.None? { return false; }
      var draft := DraftFor((taskId.value, m.value.1), payload, uuid, now);
      var id := store.AddPendingScan(draft, storageOk);
      queued := id.Some?;
    }

    /** One record for a mutation without an answer, none in every other case. */
    method ApiRequest(decode: Decoder, endpoint: string, httpMethod: string, payload: Option<Payload>, onLine: bool,
                      outcome: FetchOutcome, uuid: string, now: Time, storageOk: bool) returns (r: ApiResult)
      requires store.Valid()
      modifies store
      ensures store.Valid()
      ensures r == Queued ==> MustQueue(httpMethod, onLine, outcome) && Metadata(decode, endpoint).Some?
      ensures r == Queued
              <==> && httpMethod != "GET" && (!onLine || outcome == Rejected)
                   && storageOk && Queueable(old(store.Contents()), decode, endpoint, uuid)
      ensures r == Queued ==>
                && |store.Contents()| == |old(store.Contents())| + 1
                && QueuedAs(store.Contents()[|old(store.Contents())|], old(store.nextKey),
                            decode, endpoint, payload, uuid, now)
      ensures r == Queued <==> |store.Contents()| == |old(store.Contents())| + 1
      ensures store.Contents() == if r == Queued
                then old(store.Contents())
                     + [NewRecord(old(store.nextKey), Metadata(decode, endpoint).value, payload, uuid, now)]
                else old(store.Contents())
      ensures r == NotQueued
              <==> && MustQueue(httpMethod, onLine, outcome)
                   && !CanQueue(old(store.Contents()), decode, endpoint, payload, uuid, now, storageOk)
      ensures httpMethod == "GET" || (onLine && outcome != Rejected) ==>
                r == match outcome
                     case Rejected => FetchFailed
                     case Answered(status) => if 200 <= status < 300 then Answer(status) else ApiError(status)
    {
      var isMutation := httpMethod != "GET";
      if !onLine && isMutation {
        var queued := QueueRequest(decode, endpoint, payload, uuid, now, storageOk);
        return if queued then Queued else NotQueued;
      }
      match outcome {
        case Rejected =>
          if !isMutation { return FetchFailed; }
          var queued := QueueRequest(decode, endpoint, payload, uuid, now, storageOk);
          return if queued then Queued else NotQueued;
        case Answered(status) =>
          return if 200 <= status < 300 then Answer(status) else ApiError(status);
      }
    }
  }

  lemma ActionPaths()
    ensures "/" + ActionName(Start) == "/start"
    ensures "/" + ActionName(Complete) == "/complete"
    ensures "/" + ActionName(Flag) == "/flag"
  {
  }

  lemma PlainForm(id: string, action: Action)
    ensures Endpoint("", id, action, false) == "/tasks/" + id + ("/" + ActionName(action))
  {
    hide ActionName;
    var name := ActionName(action);
    assert TASKS + "/" == "/tasks/";
    assert "" + TASKS + "/" + id + "/" + name + "" == (TASKS + "/") + id + ("/" + name);
  }

  lemma PlainMetadata(decode: Decoder, endpoint: string, id: string, action: Action)
    requires KeepsPlain(decode) && '%' !in id && Match(endpoint) == Some((id, action))
    ensures Metadata(decode, endpoint) == Some((id, action))
  {
    hide Match;
  }

  lemma PlainEndpoint(decode: Decoder, id: string, action: Action)
    requires KeepsPlain(decode) && Segment(id) && '%' !in id
    ensures Metadata(decode, "/tasks/" + id + ("/" + ActionName(action))) == Some((id, action))
  {
    hide *;
    ParsePrinted("", id, action, false);
    PlainForm(id, action);
    PlainMetadata(decode, Endpoint("", id, action, false), id, action);
  }

  /** The endpoints that the task list builds for an ordinary id are queued under that id and action. */
  lemma ListEndpointsQueueTheirTask(decode: Decoder, id: string)
    requires KeepsPlain(decode) && Segment(id) && '%' !in id
    ensures Metadata(decode, "/tasks/" + id + "/start") == Some((id, Start))
    ensures Metadata(decode, "/tasks/" + id + "/complete") == Some((id, Complete))
    ensures Metadata(decode, "/tasks/" + id + "/flag") == Some((id, Flag))
  {
    hide *;
    ActionPaths();
    PlainEndpoint(decode, id, Start);
    PlainEndpoint(decode, id, Complete);
    PlainEndpoint(decode, id, Flag);
  }
}
