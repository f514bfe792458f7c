/**
 * The UI-side half of the bridge, `FigmaAPI` in src/figmaAPI.ts: every call
 * takes a fresh correlation id, registers a reply listener for it and posts
 * the function's source with its parameters to the main thread; a reply of
 * type EVAL_RESULT or EVAL_REJECT carrying that id settles the call.
 */
module Caller {
  import opened Values

  /** The error `figmaScopedRun` throws when the host API global is absent. */
  const EnvironmentUnavailable := "Figma environment not available."

  /** The rejection text used when a reject reply carries no string error. */
  const RunFailed := "An error occurred in FigmaAPI.run()"

  /** How the promise returned by `run` settles. */
  datatype Settlement = Resolved(result: Value) | Rejected(message: string)

  /** The `pluginMessage` of an outgoing call: `{type: "EVAL", code, id, params}`. */
  datatype Request = Request(id: nat, code: string, params: Value)

  /** No function value anywhere inside `v`. */
  predicate FunctionFree(v: Value) {
    match v
    case Fn(_) => false
    case Arr(es) => forall i :: 0 <= i < |es| ==> FunctionFree(es[i])
    case Obj(m) => forall k :: k in m ==> FunctionFree(m[k])
    case _ => true
  }

  /**
   * The replacer `run` hands to `JSON.stringify`, applied to every value in
   * the parameters: a function is replaced by its source text, everything
   * else is kept and its members replaced in turn.
   */
  function Replace(v: Value): (r: Value)
    ensures FunctionFree(r)
    ensures v.Fn? ==> r == Str(v.source)
    ensures FunctionFree(v) ==> r == v
    ensures Defined(r) <==> Defined(v)
  {
    match v
    case Fn(src) => Str(src)
    case Arr(es) => Arr(seq(|es|, i requires 0 <= i < |es| => Replace(es[i])))
    case Obj(m) =>
      var r := Obj(map k | k in m :: Replace(m[k]));
      assert FunctionFree(v) ==> r.fields == m;
      r
    case _ => v
  }

  /** The `params` field of the outgoing message: `params ? paramsString : undefined`. */
  function WireParams(params: Value): (r: Value)
    ensures Defined(r) <==> Truthy(params)
    ensures FunctionFree(r)
  {
    if Truthy(params) then Replace(params) else Undefined
  }

  /**
   * `figmaScopedRun`: the function's source text when the host API global
   * is present, otherwise the call throws `EnvironmentUnavailable`.
   */
  function ScopedRun(source: string, hostApiPresent: bool): (r: Option<string>)
    ensures r.Some? <==> hostApiPresent
    ensures r.Some? ==> r.value == source
  {
    if hostApiPresent then Some(source) else None
  }

  /**
   * The check `figmaScopedRun` is meant to make: a call is stringified and
   * posted from the UI context, where the host API global is absent, and
   * fails anywhere else.
   */
  function UIScopedRun(source: string, hostApiPresent: bool): (r: Option<string>)
    ensures r.Some? <==> !hostApiPresent
    ensures r.Some? ==> r.value == source
  {
    if hostApiPresent then None else Some(source)
  }

  /** The outgoing request as the main thread's `onmessage` receives it. */
  function Message(req: Request): (r: Value)
    ensures Field(r, "type") == Str("EVAL") && Field(r, "code") == Str(req.code)
    ensures Field(r, "id") == Id(req.id) && Field(r, "params") == req.params
  {
    Obj(map["type" := Str("EVAL"), "code" := Str(req.code), "id" := Id(req.id), "params" := req.params])
  }

  /** The text a reject reply's `error` field turns into. */
  function RejectionMessage(error: Value): (r: string)
    ensures error.Str? ==> r == error.s
    ensures !error.Str? ==> r == RunFailed
  {
    if error.Str? then error.s else RunFailed
  }

  /**
   * The id a window message is a reply to: the message must be a reply
   * (EVAL_RESULT or EVAL_REJECT) whose `id` is an exact non-negative integer.
   */
  function Addressee(data: Value): (r: Option<nat>)
    ensures r.Some? <==>
      var reply := Field(data, "pluginMessage");
      (Field(reply, "type") == Str("EVAL_RESULT") || Field(reply, "type") == Str("EVAL_REJECT"))
      && exists k: nat :: Field(reply, "id") == Id(k)
    ensures r.Some? ==> Field(Field(data, "pluginMessage"), "id") == Id(r.value)
  {
    var reply := Field(data, "pluginMessage");
    var kind, id := Field(reply, "type"), Field(reply, "id");
    if (kind == Str("EVAL_RESULT") || kind == Str("EVAL_REJECT")) && id.Num? && id.n >= 0.0 && id.n.Floor as real == id.n
    then
      assert id == Id(id.n.Floor as nat);
      Some(id.n.Floor as nat)
    else
      assert forall k: nat :: Id(k).n.Floor as real == Id(k).n;
      None
  }

  /**
   * What the reply listener of call `id` does with one window message:
   * resolve with the reply's `result`, reject with its `error` text, or
   * nothing when the message is not a reply to this call.
   */
  function Settle(data: Value, id: nat): (s: Option<Settlement>)
    ensures s.Some? <==> Addressee(data) == Some(id)
    ensures s.Some? ==> (s.value.Resolved? <==> Field(Field(data, "pluginMessage"), "type") == Str("EVAL_RESULT"))
    ensures s.Some? && s.value.Resolved? ==> s.value.result == Field(Field(data, "pluginMessage"), "result")
    ensures s.Some? && s.value.Rejected? ==>
      var error := Field(Field(data, "pluginMessage"), "error");
      s.value.message == if error.Str? then error.s else RunFailed
  {
    var reply := Field(data, "pluginMessage");
    var kind := Field(reply, "type");
    if kind == Str("EVAL_RESULT") && Field(reply, "id") == Id(id) then
      Some(Resolved(Field(reply, "result")))
    else if kind == Str("EVAL_REJECT") && Field(reply, "id") == Id(id) then
      Some(Rejected(RejectionMessage(Field(reply, "error"))))
    else
      None
  }

  /** A message settles at most one call: the listeners of two ids never both act on it. */
  lemma SettleOneCall(data: Value, a: nat, b: nat)
    requires Settle(data, a).Some? && Settle(data, b).Some?
    ensures a == b
  {
  }

  /** The shared `figmaAPI` instance: a correlation-id counter and the reply listeners. */
  class FigmaAPI {
    /** The `id` field: the correlation id the next call takes. */
    var nextId: nat
    /** Ids whose reply listener is still registered on the window. */
    var listening: set<nat>
    /** How each call's promise has settled, by id. */
    var settled: map<nat, Settlement>

    /**
     * Every id below `nextId` was issued, and each issued call either still
     * has its listener or has settled; nothing refers to an id not yet issued.
     */
    ghost predicate Valid()
      reads this
    {
      && (forall k: nat :: k in listening ==> k < nextId)
      && (forall k: nat :: k in settled ==> k < nextId)
      && (forall k: nat :: k < nextId ==> k in listening || k in settled)
    }

    /** Calls whose promise is still waiting for a reply. */
    function Pending(): set<nat>
      reads this
    {
      listening - settled.Keys
    }

    constructor ()
      ensures Valid()
      ensures nextId == 0 && listening == {} && settled == map[]
    {
      nextId := 0;
      listening := {};
      settled := map[];
    }

    /**
     * `run(fn, params)` with `fn` given by its source text. The id is taken
     * and the listener registered before `figmaScopedRun` can throw; when it
     * throws nothing is posted, the promise rejects and the listener stays.
     */
    method Run(source: string, params: Value, hostApiPresent: bool) returns (posted: Option<Request>)
      requires Valid()
      modifies this
      ensures Valid()
      ensures nextId == old(nextId) + 1
      ensures old(nextId) !in old(listening) && old(nextId) !in old(settled)
      ensures listening == old(listening) + {old(nextId)}
      ensures hostApiPresent ==>
        posted == Some(Request(old(nextId), source, WireParams(params))) && settled == old(settled)
      ensures !hostApiPresent ==>
        posted == None && settled == old(settled)[old(nextId) := Rejected(EnvironmentUnavailable)]
    {
      posted := Post(params, ScopedRun(source, hostApiPresent));
    }

    /**
     * `run` with the check `figmaScopedRun` is meant to make: the call is
     * posted from the UI context and rejects anywhere else.
     */
    method RunFromUI(source: string, params: Value, hostApiPresent: bool) returns (posted: Option<Request>)
      requires Valid()
      modifies this
      ensures Valid()
      ensures nextId == old(nextId) + 1
      ensures old(nextId) !in old(listening) && old(nextId) !in old(settled)
      ensures listening == old(listening) + {old(nextId)}
      ensures !hostApiPresent ==>
        posted == Some(Request(old(nextId), source, WireParams(params))) && settled == old(settled)
      ensures hostApiPresent ==>
        posted == None && settled == old(settled)[old(nextId) := Rejected(EnvironmentUnavailable)]
    {
      posted := Post(params, UIScopedRun(source, hostApiPresent));
    }

    /**
     * The body of `run` once the scope check has given the code to post
     * (`None`: it threw): take the id, register the listener, then post or
     * reject.
     */
    method Post(params: Value, code: Option<string>) returns (posted: Option<Request>)
      requires Valid()
      modifies this
      ensures Valid()
      ensures nextId == old(nextId) + 1
      ensures old(nextId) !in old(listening) && old(nextId) !in old(settled)
      ensures listening == old(listening) + {old(nextId)}
      ensures code.Some? ==>
        posted == Some(Request(old(nextId), code.value, WireParams(params))) && settled == old(settled)
      ensures code.None? ==>
        posted == None && settled == old(settled)[old(nextId) := Rejected(EnvironmentUnavailable)]
    {
      var id := nextId;
      nextId := nextId + 1;
      listening := listening + {id};
      var paramsString := WireParams(params);
      match code
      case None =>
        settled := settled[id := Rejected(EnvironmentUnavailable)];
        posted := None;
      case Some(text) =>
        posted := Some(Request(id, text, paramsString));
    }

    /**
     * One window message reaching every registered listener. The listener of
     * the addressed call removes itself and settles its promise, unless that
     * promise has already settled; every other listener ignores the message.
     */
    method Deliver(data: Value) returns (outcome: Option<(nat, Settlement)>)
      requires Valid()
      modifies this
      ensures Valid()
      ensures nextId == old(nextId)
      ensures Addressee(data).Some? && Addressee(data).value in old(listening) ==>
        listening == old(listening) - {Addressee(data).value}
      ensures !(Addressee(data).Some? && Addressee(data).value in old(listening)) ==>
        listening == old(listening)
      ensures outcome.Some? <==> Addressee(data).Some? && Addressee(data).value in old(Pending())
      ensures outcome.Some? ==>
        Settle(data, outcome.value.0) == Some(outcome.value.1) &&
        settled == old(settled)[outcome.value.0 := outcome.value.1]
      ensures outcome.None? ==> settled == old(settled)
      ensures forall k :: k in old(settled) ==> k in settled && settled[k] == old(settled)[k]
    {
      outcome := None;
      var addressee := Addressee(data);
      if addressee.Some? && addressee.value in listening {
        var id := addressee.value;
        listening := listening - {id};
        if id !in settled {
          var s := Settle(data, id).value;
          settled := settled[id := s];
          outcome := Some((id, s));
        }
      }
    }
  }
}
