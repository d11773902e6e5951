/**
 * Both handlers against the same backends, over any sequence of
 * invocations: records are only ever added or replaced, every stored
 * record sits under its own identifier, reading changes nothing, and a
 * created record can be read back.
 */
module Lifecycle {
  import opened Models
  import opened Common
  import opened Stores
  import opened Create
  import opened Get

  datatype Invocation =
    | CreateCall(req: Request, created: CreateOutcomes)
    | GetCall(req: Request, looked: GetOutcomes)

  /** Every record is stored under its own `Id`, and that `Id` has the generated shape. */
  ghost predicate KeyedById(s: Snapshot) {
    forall k | k in s.items :: s.items[k].id == k.id && IsGeneratedId(k.id)
  }

  /** The backends after one invocation. */
  function Apply(s: Snapshot, cfg: Config, encode: Encoder, call: Invocation): Snapshot {
    match call
    case CreateCall(req, o) => HandlerEffect(s, cfg, encode, req, o).after
    case GetCall(_, _) => s
  }

  /**
   * The backends after a sequence of invocations. Nothing is ever deleted
   * from either store, and the records stay keyed by their identifiers.
   */
  function Serve(s: Snapshot, cfg: Config, encode: Encoder, calls: seq<Invocation>): (r: Snapshot)
    ensures s.objects.Keys <= r.objects.Keys
    ensures s.items.Keys <= r.items.Keys
    ensures KeyedById(s) ==> KeyedById(r)
    decreases |calls|
  {
    if calls == [] then s
    else Serve(Apply(s, cfg, encode, calls[0]), cfg, encode, calls[1..])
  }

  /** A sequence of reads leaves both stores exactly as they were. */
  lemma {:induction false} ReadOnlyTrace(s: Snapshot, cfg: Config, encode: Encoder, calls: seq<Invocation>)
    requires forall i | 0 <= i < |calls| :: calls[i].GetCall?
    ensures Serve(s, cfg, encode, calls) == s
    decreases |calls|
  {
    if calls != [] {
      assert calls[0].GetCall?;
      ReadOnlyTrace(s, cfg, encode, calls[1..]);
    }
  }

  /** No create in `calls` that reaches `PutItem` writes under `key`. */
  predicate NeverRegenerates(cfg: Config, encode: Encoder, calls: seq<Invocation>, key: ItemKey) {
    forall i | 0 <= i < |calls| ::
      calls[i].CreateCall? && Persists(calls[i].created) ==> RecordKey(cfg, encode, calls[i].created) != key
  }

  /** A stored record survives every invocation that does not draw its identifier again. */
  lemma {:induction false} RecordSurvives(s: Snapshot, cfg: Config, encode: Encoder, calls: seq<Invocation>, key: ItemKey)
    requires key in s.items
    requires NeverRegenerates(cfg, encode, calls, key)
    ensures key in Serve(s, cfg, encode, calls).items
    ensures Serve(s, cfg, encode, calls).items[key] == s.items[key]
    decreases |calls|
  {
    if calls != [] {
      var next := Apply(s, cfg, encode, calls[0]);
      assert next.items[key] == s.items[key] by {
        if calls[0].CreateCall? && Persists(calls[0].created) {
          assert RecordKey(cfg, encode, calls[0].created) != key;
        }
      }
      assert NeverRegenerates(cfg, encode, calls[1..], key) by {
        forall i | 0 <= i < |calls[1..]|
          ensures calls[1..][i].CreateCall? && Persists(calls[1..][i].created) ==>
                    RecordKey(cfg, encode, calls[1..][i].created) != key
        {
          assert calls[1..][i] == calls[i + 1];
        }
      }
      RecordSurvives(next, cfg, encode, calls[1..], key);
    }
  }

  /** A successful create followed by a get of the returned id answers 200 with the new record. */
  lemma CreateThenGet(s: Snapshot, cfg: Config, encode: Encoder, req: Request, o: CreateOutcomes, getReq: Request)
    requires HandlerEffect(s, cfg, encode, req, o).reply.response.statusCode == 201
    requires PathId(getReq) == RecordKey(cfg, encode, o).id
    ensures o.decoded.Ok?
    ensures var step := HandlerEffect(s, cfg, encode, req, o);
            var id := RecordKey(cfg, encode, o).id;
            GetHandler(step.after, cfg, getReq, AllSucceed) ==
              Reply(Response(200, false, UserFound(NewRecord(o.decoded.value, id, o.createdAt, o.updatedAt)),
                             ReplyHeaders(GetFuncReply)),
                    None)
  {
  }

  /**
   * The round trip survives later traffic: after a successful create, any
   * invocations that never draw the same identifier, then a get of that
   * identifier, the reply carries the record as it was written.
   */
  lemma CreatedRecordRetrievable(s: Snapshot, cfg: Config, encode: Encoder, req: Request, o: CreateOutcomes,
                                 later: seq<Invocation>, getReq: Request)
    requires HandlerEffect(s, cfg, encode, req, o).reply.response.statusCode == 201
    requires NeverRegenerates(cfg, encode, later, RecordKey(cfg, encode, o))
    requires PathId(getReq) == RecordKey(cfg, encode, o).id
    ensures o.decoded.Ok?
    ensures var after := Serve(HandlerEffect(s, cfg, encode, req, o).after, cfg, encode, later);
            var id := RecordKey(cfg, encode, o).id;
            GetHandler(after, cfg, getReq, AllSucceed).response.body ==
              UserFound(NewRecord(o.decoded.value, id, o.createdAt, o.updatedAt))
  {
    var created := HandlerEffect(s, cfg, encode, req, o).after;
    var key := RecordKey(cfg, encode, o);
    RecordSurvives(created, cfg, encode, later, key);
  }
}
