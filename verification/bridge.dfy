/**
 * The two halves of the bridge together: what the main thread receives for
 * a call the UI posts, and how the UI settles on the main thread's reply.
 */
module Bridge {
  import opened Values
  import opened Caller
  import opened Executor

  /**
   * Parameters that cross the bridge intact: the reviver recognises the
   * source of every function in them and mistakes none of their strings for
   * a function.
   */
  predicate Transferable(v: Value) {
    match v
    case Fn(src) => !PlainText(src)
    case Str(s) => PlainText(s)
    case Arr(es) => forall i :: 0 <= i < |es| ==> Transferable(es[i])
    case Obj(m) => forall k :: k in m ==> Transferable(m[k])
    case _ => true
  }

  /** The window event data the UI sees for a reply posted by the main thread. */
  function Envelope(reply: Value): Value {
    Obj(map["pluginMessage" := reply])
  }

  /**
   * How the UI's promise settles for an outcome on the main thread: the
   * result itself, or a rejection with the thrown string, with the string
   * `message` of a thrown object, or with the fixed fallback text.
   */
  function CallerSees(outcome: Outcome): (s: Settlement)
    ensures outcome.Returned? ==> s == Resolved(outcome.result)
    ensures outcome.Threw? && outcome.thrown.Str? ==> s == Rejected(outcome.thrown.s)
    ensures outcome.Threw? && outcome.thrown.Obj? && "message" in outcome.thrown.fields
            && outcome.thrown.fields["message"].Str? ==>
              s == Rejected(outcome.thrown.fields["message"].s)
    ensures outcome.Threw? && !outcome.thrown.Str?
            && !(outcome.thrown.Obj? && "message" in outcome.thrown.fields
                 && outcome.thrown.fields["message"].Str?) ==>
              s == Rejected(RunFailed)
  {
    match outcome
    case Returned(result) => Resolved(result)
    case Threw(thrown) => Rejected(RejectionMessage(ErrorText(thrown)))
  }

  /** Replacing functions by their source and reviving gives the parameters back. */
  lemma {:induction false} ParamsRoundTrip(v: Value)
    requires Transferable(v)
    ensures ReviveTree(Replace(v)) == v
  {
    match v
    case Arr(es) =>
      var sent := Replace(v).elems;
      forall i | 0 <= i < |es|
        ensures ReviveTree(sent[i]) == es[i]
      {
        ParamsRoundTrip(es[i]);
      }
      assert ReviveTree(Replace(v)).elems == es;
    case Obj(m) =>
      var sent := Replace(v).fields;
      forall k | k in m
        ensures ReviveTree(sent[k]) == m[k]
      {
        ParamsRoundTrip(m[k]);
      }
      assert ReviveTree(Replace(v)).fields == m;
    case _ =>
  }

  /** The posted function is called with exactly the parameters `run` was given. */
  lemma HostReceivesParams(params: Value, fn: Value -> Outcome, parseError: Value)
    requires Truthy(params) && Transferable(params)
    ensures Execute(fn, WireParams(params), parseError) == fn(params)
  {
    ParamsRoundTrip(params);
  }

  /**
   * A call without (truthy) parameters posts `params: undefined`, which the
   * main thread's `JSON.parse` rejects: the function never runs.
   */
  lemma RunWithoutParamsThrows(params: Value, fn: Value -> Outcome, parseError: Value)
    requires !Truthy(params)
    ensures Execute(fn, WireParams(params), parseError) == Threw(parseError)
  {
  }

  /**
   * The one reply the main thread sends for a call settles that call, and
   * only that call, the way `CallerSees` says.
   */
  lemma ReplyCorrelation(req: Request, fn: Value -> Outcome, parseError: Value, other: nat)
    ensures Handle(Message(req), Some(fn), parseError).Some?
    ensures var reply := Handle(Message(req), Some(fn), parseError).value;
      && Settle(Envelope(reply), req.id) == Some(CallerSees(Execute(fn, req.params, parseError)))
      && (other != req.id ==> Settle(Envelope(reply), other) == None)
  {
    var message := Message(req);
    assert Field(message, "type") == Str("EVAL");
    assert Field(message, "id") == Id(req.id);
    assert Field(message, "params") == req.params;
    assert other != req.id ==> Id(other) != Id(req.id);
  }

  /**
   * End to end: `run(fn, params)` with transferable parameters, once posted,
   * is settled by the main thread's reply with what `fn(params)` produced.
   */
  lemma CallRoundTrip(id: nat, source: string, params: Value, fn: Value -> Outcome, parseError: Value)
    requires Truthy(params) && Transferable(params)
    ensures var reply := Handle(Message(Request(id, source, WireParams(params))), Some(fn), parseError);
      reply.Some? && Settle(Envelope(reply.value), id) == Some(CallerSees(fn(params)))
  {
    HostReceivesParams(params, fn, parseError);
    ReplyCorrelation(Request(id, source, WireParams(params)), fn, parseError, id);
  }
}
