/**
 * The main-thread half of the bridge, the `figma.ui.onmessage` handler in
 * scr/listenerOnMain.js: it evaluates the posted source into a function,
 * parses the parameters with a reviver that turns function-looking strings
 * back into functions, runs the function and answers with one reply that
 * echoes the request's id.
 */
module Executor {
  import opened Values

  predicate StartsWith(s: string, prefix: string) {
    |prefix| <= |s| && s[..|prefix|] == prefix
  }

  /** `s.includes(part)` */
  predicate Includes(s: string, part: string)
    decreases |s|
  {
    StartsWith(s, part) || (|s| > 0 && Includes(s[1..], part))
  }

  /** How the reviver treats one string, with the text it hands to `eval`. */
  datatype Reconstruction =
    | RegularFunction(evalText: string)
    | ArrowFunction(evalText: string)
    | Unchanged

  /**
   * The reviver's heuristic: a string starting with "function" is evaluated
   * as a parenthesised regular function; failing that, one starting with "("
   * or containing "=>" is evaluated as an arrow function; any other string
   * stays a string.
   */
  function Reconstruct(s: string): (r: Reconstruction)
    ensures r.RegularFunction? <==> StartsWith(s, "function")
    ensures r.ArrowFunction? <==> !StartsWith(s, "function") && (StartsWith(s, "(") || Includes(s, "=>"))
    ensures r.RegularFunction? ==> r.evalText == "(" + s + ")"
    ensures r.ArrowFunction? ==> r.evalText == s
  {
    if StartsWith(s, "function") then RegularFunction("(" + s + ")")
    else if StartsWith(s, "(") || Includes(s, "=>") then ArrowFunction(s)
    else Unchanged
  }

  /** A string the reviver leaves alone. */
  predicate PlainText(s: string) {
    Reconstruct(s).Unchanged?
  }

  /**
   * The reviver on one value. Evaluating either text yields a function whose
   * source is the string itself, so a reconstructed function is `Fn(s)`.
   */
  function Revive(v: Value): (r: Value)
    ensures v.Str? && !PlainText(v.s) ==> r == Fn(v.s)
    ensures !(v.Str? && !PlainText(v.s)) ==> r == v
    ensures r.Str? ==> PlainText(r.s)
  {
    if v.Str? && !PlainText(v.s) then Fn(v.s) else v
  }

  /** No string anywhere inside `v` that the reviver would turn into a function. */
  predicate NoFunctionText(v: Value) {
    match v
    case Str(s) => PlainText(s)
    case Arr(es) => forall i :: 0 <= i < |es| ==> NoFunctionText(es[i])
    case Obj(m) => forall k :: k in m ==> NoFunctionText(m[k])
    case _ => true
  }

  /**
   * `JSON.parse(text, reviver)` on the value tree the text encodes: members
   * are revived first, then the value holding them.
   */
  function ReviveTree(v: Value): (r: Value)
    ensures NoFunctionText(r)
    ensures v.Str? ==> r == Revive(v)
    ensures NoFunctionText(v) ==> r == v
  {
    match v
    case Arr(es) => Arr(seq(|es|, i requires 0 <= i < |es| => ReviveTree(es[i])))
    case Obj(m) =>
      var r := Obj(map k | k in m :: ReviveTree(m[k]));
      assert NoFunctionText(v) ==> r.fields == m;
      r
    case _ => Revive(v)
  }

  /**
   * The `error` field of a reject reply: a thrown string as it is, the
   * `message` of a thrown object that has one, otherwise null.
   */
  function ErrorText(thrown: Value): (r: Value)
    ensures thrown.Str? ==> r == thrown
    ensures thrown.Obj? && "message" in thrown.fields ==> r == thrown.fields["message"]
    ensures !thrown.Str? && !(thrown.Obj? && "message" in thrown.fields) ==> r == Null
  {
    match thrown
    case Str(_) => thrown
    case Obj(m) => if "message" in m then m["message"] else Null
    case _ => Null
  }

  /** How running the posted function ended (its awaited result, or what it threw). */
  datatype Outcome = Returned(result: Value) | Threw(thrown: Value)

  /**
   * The body of the `try`: parse the parameters (`JSON.parse(undefined)`
   * throws `parseError`), then call the function with them.
   */
  function Execute(fn: Value -> Outcome, wireParams: Value, parseError: Value): (r: Outcome)
    ensures wireParams.Undefined? ==> r == Threw(parseError)
    ensures Defined(wireParams) && NoFunctionText(wireParams) ==> r == fn(wireParams)
    ensures Defined(wireParams) ==> exists p :: NoFunctionText(p) && r == fn(p)
  {
    if wireParams.Undefined? then Threw(parseError) else fn(ReviveTree(wireParams))
  }

  /** The reply posted back to the UI for an outcome, echoing the request id. */
  function Reply(id: Value, outcome: Outcome): (r: Value)
    ensures Field(r, "id") == id
    ensures outcome.Returned? ==> Field(r, "type") == Str("EVAL_RESULT") && Field(r, "result") == outcome.result
    ensures outcome.Threw? ==> Field(r, "type") == Str("EVAL_REJECT") && Field(r, "error") == ErrorText(outcome.thrown)
  {
    match outcome
    case Returned(result) => Obj(map["type" := Str("EVAL_RESULT"), "result" := result, "id" := id])
    case Threw(thrown) => Obj(map["type" := Str("EVAL_REJECT"), "error" := ErrorText(thrown), "id" := id])
  }

  /**
   * `figma.ui.onmessage` for one message. `code` is what evaluating the
   * message's `code` gives: `None` when that evaluation throws, which happens
   * outside the `try`, so no reply is sent.
   */
  function Handle(message: Value, code: Option<Value -> Outcome>, parseError: Value): (reply: Option<Value>)
    ensures reply.Some? <==> Field(message, "type") == Str("EVAL") && code.Some?
    ensures reply.Some? ==> Field(reply.value, "id") == Field(message, "id")
    ensures reply.Some? ==>
      var outcome := Execute(code.value, Field(message, "params"), parseError);
      && (outcome.Returned? ==>
            Field(reply.value, "type") == Str("EVAL_RESULT") && Field(reply.value, "result") == outcome.result)
      && (outcome.Threw? ==>
            Field(reply.value, "type") == Str("EVAL_REJECT") && Field(reply.value, "error") == ErrorText(outcome.thrown))
  {
    if Field(message, "type") != Str("EVAL") then None
    else match code
      case None => None
      case Some(fn) => Some(Reply(Field(message, "id"), Execute(fn, Field(message, "params"), parseError)))
  }

  /** A string does not start with a prefix whose first character differs from its own. */
  lemma FirstCharacterDiffers(s: string, prefix: string)
    requires |s| > 0 && |prefix| > 0 && s[0] != prefix[0]
    ensures !StartsWith(s, prefix)
  {
    if |prefix| <= |s| {
      assert s[..|prefix|][0] == s[0];
    }
  }

  /** A string in which no character is '=' does not include "=>". */
  lemma {:induction false} NoArrowWithoutEquals(s: string)
    requires forall i :: 0 <= i < |s| ==> s[i] != '='
    ensures !Includes(s, "=>")
  {
    if |s| > 0 {
      FirstCharacterDiffers(s, "=>");
      NoArrowWithoutEquals(s[1..]);
    }
  }

  /** The heuristic misses an `async function`: its source stays a string. */
  lemma AsyncFunctionNotReconstructed()
    ensures PlainText("async function(){}")
  {
    var src := "async function(){}";
    FirstCharacterDiffers(src, "function");
    FirstCharacterDiffers(src, "(");
    NoArrowWithoutEquals(src);
  }

  /** A plain string parameter that starts with "(" is mistaken for an arrow function. */
  lemma ParenthesisedTextReconstructed()
    ensures Reconstruct("(555) 010-0199") == ArrowFunction("(555) 010-0199")
  {
    var text := "(555) 010-0199";
    FirstCharacterDiffers(text, "function");
    assert text[..1] == "(";
  }
}
