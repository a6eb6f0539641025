/**
 * The procedure-application protocol of schemy/procedure.py.
 *
 * `apply` returns a pair: `(val, None)` means the call is done with value
 * `val`; `(expr, env)` means the caller must go on by evaluating `expr` in
 * `env` (types.py:145-152).  `ApplyResult` is that pair as read by the
 * caller.  Evaluation itself (`scheme_eval`) is a parameter `ev`, and the
 * Python function behind a primitive is a parameter `host`.
 */
module Procedures {
  import opened Errors
  import opened Environments
  import opened Values
  import opened Types

  datatype ApplyResult = Done(value: Value) | Continue(expr: Value, env: Frame<Value>)

  /** types.py:145-152: how a caller reads the pair `(first, second)` that `apply` returns. */
  function Outcome(first: Value, second: Frame?<Value>): (r: ApplyResult)
    ensures r.Done? <==> second == null
    ensures r.Done? ==> r.value == first
    ensures r.Continue? ==> r.expr == first && r.env == second
  {
    if second == null then Done(first) else Continue(first, second)
  }

  /** A finished call whose value is the outcome of `res`. */
  function DoneWith(res: Result<Value>): (r: Result<ApplyResult>)
    ensures r.Ok? <==> res.Ok?
    ensures r.Ok? ==> r.value == Done(res.value)
    ensures r.Err? ==> r.error == res.error
  {
    if res.Ok? then Ok(Done(res.value)) else Err(res.error)
  }

  // ---------------------------------------------------------------------
  // Evaluating arguments
  // ---------------------------------------------------------------------

  /**
   * procedure.py:11-17: every operand evaluated in `env`, left to right;
   * the first failure is the outcome.
   */
  function EvalAll(operands: seq<Value>, env: Frame?<Value>, ev: Evaluator): (r: Result<seq<Value>>)
    ensures r.Ok? <==> forall i :: 0 <= i < |operands| ==> ev(operands[i], env).Ok?
    ensures r.Ok? ==> |r.value| == |operands|
    ensures r.Ok? ==> forall i :: 0 <= i < |operands| ==> r.value[i] == ev(operands[i], env).value
  {
    if operands == [] then Ok([])
    else
      var first :- ev(operands[0], env);
      var rest :- EvalAll(operands[1..], env, ev);
      assert forall i :: 1 <= i < |operands| ==> operands[i] == operands[1..][i - 1];
      Ok([first] + rest)
  }

  /** procedure.py:11-17: a failure is the failure of the first operand that fails. */
  lemma {:induction false} EvalAllFirstError(operands: seq<Value>, env: Frame?<Value>, ev: Evaluator)
    requires EvalAll(operands, env, ev).Err?
    ensures exists i ::
              && 0 <= i < |operands|
              && ev(operands[i], env) == Err(EvalAll(operands, env, ev).error)
              && forall j :: 0 <= j < i ==> ev(operands[j], env).Ok?
  {
    if ev(operands[0], env).Err? {
      assert ev(operands[0], env) == Err(EvalAll(operands, env, ev).error);
    } else {
      var rest := operands[1..];
      EvalAllFirstError(rest, env, ev);
      var i :| 0 <= i < |rest| && ev(rest[i], env) == Err(EvalAll(rest, env, ev).error)
        && forall j :: 0 <= j < i ==> ev(rest[j], env).Ok?;
      assert forall j :: 1 <= j < i + 1 ==> operands[j] == rest[j - 1];
      assert ev(operands[i + 1], env) == Err(EvalAll(operands, env, ev).error);
    }
  }

  /** procedure.py:91-92: one by-name thunk per operand, with no formals, closing over `env`. */
  function Thunks(operands: seq<Value>, env: Frame?<Value>): (r: seq<Value>)
    ensures |r| == |operands|
    ensures forall i :: 0 <= i < |r| ==> r[i].Thunk? && r[i].formals == [] && r[i].env == env
  {
    seq(|operands|, i requires 0 <= i < |operands| => Thunk([], operands[i], env))
  }

  /** Fetches the actual value of each argument in turn (types.py:156-161, procedure.py:98-99). */
  function ForceAll(args: seq<Value>, ev: Evaluator): Result<seq<Value>> {
    if args == [] then Ok([])
    else
      var first :- ActualValue(args[0], ev);
      var rest :- ForceAll(args[1..], ev);
      Ok([first] + rest)
  }

  /**
   * procedure.py:91-99: passing operands by name and fetching their values
   * later gives what evaluating them eagerly gives, failures included.
   */
  lemma {:induction false} ForcingThunksIsEvaluating(operands: seq<Value>, env: Frame?<Value>, ev: Evaluator)
    ensures ForceAll(Thunks(operands, env), ev) == EvalAll(operands, env, ev)
  {
    if operands != [] {
      var ts := Thunks(operands, env);
      assert ts[0] == Thunk([], operands[0], env);
      assert ts[1..] == Thunks(operands[1..], env);
      ForcingThunksIsEvaluating(operands[1..], env, ev);
    }
  }

  /**
   * procedure.py:11-17 and 91-92, and types.py:136-143 for a value that is
   * not a procedure.
   */
  function EvaluateArguments(p: Value, operands: seq<Value>, env: Frame?<Value>, ev: Evaluator): (r: Result<seq<Value>>)
    ensures !p.IsProcedure() ==> r == Err(NonFunction(p))
    ensures p.Nu? ==> r == Ok(Thunks(operands, env))
    ensures p.IsProcedure() && !p.Nu? ==> r == EvalAll(operands, env, ev)
  {
    if !p.IsProcedure() then Err(NonFunction(p))
    else if p.Nu? then Ok(Thunks(operands, env))
    else EvalAll(operands, env, ev)
  }

  // ---------------------------------------------------------------------
  // Applying procedures
  // ---------------------------------------------------------------------

  /** An argument of a host function: a Scheme value, or the calling frame. */
  datatype HostArg = Arg(v: Value) | EnvArg(env: Frame?<Value>)

  /** The Python function behind each primitive, identified by number. */
  type Host = (nat, seq<HostArg>) -> Result<Value>

  /** procedure.py:40-42: the arguments, then the calling frame when `use_env` is set. */
  function HostArgs(args: seq<Value>, useEnv: bool, env: Frame?<Value>): (r: seq<HostArg>)
    ensures |r| == |args| + (if useEnv then 1 else 0)
    ensures forall i :: 0 <= i < |args| ==> r[i] == Arg(args[i])
    ensures useEnv ==> r[|args|] == EnvArg(env)
  {
    var listed := seq(|args|, i requires 0 <= i < |args| => Arg(args[i]));
    if useEnv then listed + [EnvArg(env)] else listed
  }

  /**
   * procedure.py:33-46: a primitive call is always done; a host TypeError
   * becomes a SchemeError with the same message, and any other failure of
   * the host passes through.
   */
  function PrimitiveApply(p: Value, args: seq<Value>, env: Frame?<Value>, host: Host): (r: Result<ApplyResult>)
    requires p.Primitive?
    ensures var out := host(p.fn, HostArgs(args, p.useEnv, env));
      && (r.Ok? <==> out.Ok?)
      && (r.Ok? ==> r.value == Done(out.value))
      && (out.Err? && out.error.TypeError? ==> r == Err(SchemeError(out.error.msg)))
      && (out.Err? && !out.error.TypeError? ==> r == Err(out.error))
  {
    match host(p.fn, HostArgs(args, p.useEnv, env))
    case Ok(val) => Ok(Outcome(val, null))
    case Err(TypeError(msg)) => Err(SchemeError(msg))
    case Err(e) => Err(e)
  }

  /** procedure.py:33-46: a primitive never asks its caller to continue. */
  lemma PrimitiveNeverContinues(p: Value, args: seq<Value>, env: Frame?<Value>, host: Host)
    requires p.Primitive?
    ensures PrimitiveApply(p, args, env, host).Ok? ==> PrimitiveApply(p, args, env, host).value.Done?
  {
  }

  /**
   * procedure.py:76-82 with the frame `make_call_frame` builds returned
   * (environments.py:43-53).  With tail recursion the caller is asked to
   * evaluate the body in a fresh child of the closure's frame that binds the
   * formals to the arguments; without it the body is evaluated there at once.
   * A closure with no frame fails as `None.make_call_frame` does.
   */
  method LambdaApply(p: Value, args: seq<Value>, tailRec: bool, ev: Evaluator) returns (r: Result<ApplyResult>, frame: Frame?<Value>)
    requires p.IsLambda()
    requires p.env != null ==> p.env.Valid()
    ensures p.env == null ==> r == Err(AttributeError) && frame == null
    ensures p.env != null && |p.formals| != |args| ==> r == Err(SchemeError(ArityMessage)) && frame == null
    ensures p.env != null && |p.formals| == |args| ==>
      && frame != null && fresh(frame) && frame.Valid()
      && frame.parent == p.env && frame.bindings == Bind(map[], p.formals, args)
      && (tailRec ==> r == Ok(Continue(p.body, frame)))
      && (!tailRec ==> r == DoneWith(ev(p.body, frame)))
  {
    if p.env == null {
      return Err(AttributeError), null;
    }
    var made := p.env.MakeCallFrame(p.formals, args);
    if made.Err? {
      return Err(made.error), null;
    }
    frame := made.value;
    if tailRec {
      r := Ok(Outcome(p.body, frame));
    } else {
      r := DoneWith(ev(p.body, frame));
    }
  }

  /**
   * procedure.py:76-82 as written: `make_call_frame` returns `None`
   * (environments.py:43-55), so with tail recursion the pair is
   * `(body, None)`, which the protocol reads as a finished call whose value
   * is the unevaluated body; without it the body is evaluated with no frame.
   */
  method LambdaApplyAsWritten(p: Value, args: seq<Value>, tailRec: bool, ev: Evaluator) returns (r: Result<ApplyResult>)
    requires p.IsLambda()
    requires p.env != null ==> p.env.Valid()
    ensures p.env != null && |p.formals| == |args| && tailRec ==> r == Ok(Done(p.body))
    ensures p.env != null && |p.formals| == |args| && !tailRec ==> r == DoneWith(ev(p.body, null))
    ensures p.env != null && |p.formals| != |args| ==> r == Err(SchemeError(ArityMessage))
  {
    if p.env == null {
      return Err(AttributeError);
    }
    var made := p.env.MakeCallFrameAsWritten(p.formals, args);
    if made.Err? {
      return Err(made.error);
    }
    var newEnv := made.value;
    if tailRec {
      r := Ok(Outcome(p.body, newEnv));
    } else {
      r := DoneWith(ev(p.body, newEnv));
    }
  }

  /**
   * types.py:145-154 with the overrides of procedure.py:33-46 and 76-82:
   * apply any value to already evaluated arguments.
   */
  method Apply(p: Value, args: seq<Value>, env: Frame?<Value>, tailRec: bool, ev: Evaluator, host: Host)
    returns (r: Result<ApplyResult>, frame: Frame?<Value>)
    requires p.IsLambda() && p.env != null ==> p.env.Valid()
    ensures !p.IsProcedure() ==> r == Err(NonFunction(p)) && frame == null
    ensures p.Primitive? ==> r == PrimitiveApply(p, args, env, host) && frame == null
    ensures p.IsLambda() && p.env == null ==> r == Err(AttributeError) && frame == null
    ensures p.IsLambda() && p.env != null && |p.formals| != |args| ==>
      r == Err(SchemeError(ArityMessage)) && frame == null
    ensures p.IsLambda() && p.env != null && |p.formals| == |args| ==>
      && frame != null && fresh(frame) && frame.Valid()
      && frame.parent == p.env && frame.bindings == Bind(map[], p.formals, args)
      && (tailRec ==> r == Ok(Continue(p.body, frame)))
      && (!tailRec ==> r == DoneWith(ev(p.body, frame)))
  {
    if p.Primitive? {
      r := PrimitiveApply(p, args, env, host);
      frame := null;
    } else if p.IsLambda() {
      r, frame := LambdaApply(p, args, tailRec, ev);
    } else {
      r := Err(NonFunction(p));
      frame := null;
    }
  }

  // ---------------------------------------------------------------------
  // Equality of lambda procedures
  // ---------------------------------------------------------------------

  /** Python's `==` on two closure frames that may be `None` (environments.py:22-23). */
  predicate EnvEquals(a: Frame?<Value>, b: Frame?<Value>)
    requires a != null ==> a.Valid()
    requires b != null ==> b.Valid()
  {
    if a == null then b == null else a.Equals(b)
  }

  /** procedure.py:70-74 */
  predicate LambdaEquals(p: Value, q: Value): (b: bool)
    requires p.IsLambda() && (p.env != null ==> p.env.Valid())
    requires q.IsLambda() && q.env != null ==> q.env.Valid()
    ensures b ==> q.IsLambda() && (p.env == null <==> q.env == null)
    ensures b && p.env != null ==> p.env.depth == q.env.depth
  {
    && TypeName(q) == TypeName(p)
    && p.formals == q.formals
    && p.body == q.body
    && EnvEquals(p.env, q.env)
  }

  /**
   * procedure.py:70-74 with environments.py:22-23: two procedures of the
   * same class with the same formals and body are equal exactly when their
   * frames sit at the same depth of their chains, whatever they bind.
   */
  lemma LambdaEqualsIff(p: Value, q: Value)
    requires p.IsLambda() && (p.env != null ==> p.env.Valid())
    requires q.IsLambda() && (q.env != null ==> q.env.Valid())
    ensures LambdaEquals(p, q) <==>
      && TypeName(q) == TypeName(p) && p.formals == q.formals && p.body == q.body
      && (p.env == null <==> q.env == null)
      && (p.env != null ==> p.env.depth == q.env.depth)
  {
    if p.env != null && q.env != null {
      p.env.EqualsIffSameDepth(q.env);
    }
  }
}
