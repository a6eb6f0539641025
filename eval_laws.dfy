/**
 * What schemy/eval.py promises about `evaluate`, proved about `Eval`:
 * one lemma per form, the binding of parameters in a call, the fact that
 * more fuel never changes an answer that did not run out of fuel, and the
 * examples of tests/test_eval.py that the evaluator can meet.
 */
module EvaluatorLaws {
  import opened Errors
  import opened Reader
  import opened Evaluator
  import Numerals

  // ---------------------------------------------------------------------
  // One form at a time
  // ---------------------------------------------------------------------

  /**
   * eval.py:20-21: a symbol evaluates to its binding in the nearest frame
   * of the chain that binds it, and fails when none does.
   */
  lemma SymbolIsNearestBinding(name: string, env: nat, st: Store, fuel: nat, host: Host)
    requires WellFormed(st) && env < |st| && HostSafe(host)
    ensures var k := Sym(name);
      Eval(k, env, st, fuel + 1, host) ==
        (if k in Visible(st, env) then Ok(Visible(st, env)[k]) else Err(AttributeError), st)
  {
    FindIsVisible(st, env, Sym(name));
  }

  /** eval.py:22-23: a number evaluates to itself and changes nothing. */
  lemma NumberIsItself(x: Exp, env: nat, st: Store, fuel: nat, host: Host)
    requires x.Int? || x.Real?
    requires WellFormed(st) && env < |st| && HostSafe(host)
    ensures Eval(x, env, st, fuel + 1, host) == (Ok(Data(x)), st)
  {
  }

  /** eval.py:24-26: `(quote e)` is `e`, unevaluated, and changes nothing. */
  lemma QuoteIsOperand(e: Exp, env: nat, st: Store, fuel: nat, host: Host)
    requires WellFormed(st) && env < |st| && HostSafe(host)
    ensures Eval(List([Sym("quote"), e]), env, st, fuel + 1, host) == (Ok(Data(e)), st)
  {
  }

  /**
   * eval.py:27-30: the test is evaluated first; then only the branch it
   * selects is evaluated, in the same frame and in the store the test left.
   */
  lemma IfTakesOneBranch(t: Exp, c: Exp, a: Exp, env: nat, st: Store, fuel: nat, host: Host)
    requires WellFormed(st) && env < |st| && HostSafe(host)
    ensures var (test, st1) := Eval(t, env, st, fuel, host);
      Eval(List([Sym("if"), t, c, a]), env, st, fuel + 1, host) ==
        if test.Err? then (Err(test.error), st1)
        else Eval(if Truthy(test.value) then c else a, env, st1, fuel, host)
  {
    var items := [Sym("if"), t, c, a];
    assert Eval(List(items), env, st, fuel + 1, host) == EvalIf(items, env, st, fuel, host);
  }

  /**
   * eval.py:27-30: `(if 1e-n c a)` with n >= 400 takes the alternative,
   * because the float the literal stands for is 0.0.
   */
  lemma UnderflowTakesAlternative(n: string, c: Exp, a: Exp, env: nat, st: Store, fuel: nat, host: Host)
    requires Numerals.DigitRun(n) && Numerals.DigitsValue(n) >= 400
    requires WellFormed(st) && env < |st| && HostSafe(host)
    ensures Eval(List([Sym("if"), Real("1e-" + n), c, a]), env, st, fuel + 2, host) == Eval(a, env, st, fuel + 1, host)
  {
    IfTakesOneBranch(Real("1e-" + n), c, a, env, st, fuel + 1, host);
    NumberIsItself(Real("1e-" + n), env, st, fuel, host);
    TinyFloatIsFalse(n);
  }

  /**
   * eval.py:31-33: `(define v e)` returns nothing and binds `v` to the value
   * of `e` in the current frame only; every other frame is left as `e` left it.
   */
  lemma DefineBindsLocally(v: Exp, e: Exp, env: nat, st: Store, fuel: nat, host: Host)
    requires !v.List?
    requires WellFormed(st) && env < |st| && HostSafe(host)
    ensures var (val, st1) := Eval(e, env, st, fuel, host);
      var (r, st2) := Eval(List([Sym("define"), v, e]), env, st, fuel + 1, host);
      val.Ok? ==>
        && r == Ok(NoneVal)
        && |st2| == |st1|
        && st2[env].vars == st1[env].vars[v := val.value]
        && st2[env].outer == st1[env].outer
        && (forall j :: 0 <= j < |st1| && j != env ==> st2[j] == st1[j])
        && Lookup(st2, env, v) == Ok(val.value)
  {
  }

  /** After `Assign` rewrites a key where `Find` located it, `Find` still locates it there. */
  lemma {:induction false} FindAfterAssign(st: Store, env: nat, k: Exp, v: EVal, i: nat)
    requires WellFormed(st) && env < |st| && Find(st, env, k) == Some(i)
    requires WellFormed(Assign(st, i, k, v))
    ensures Find(Assign(st, i, k, v), env, k) == Some(i)
    decreases env
  {
    if k !in st[env].vars {
      assert FrameFits(st[env], env, |st|);
      FindAfterAssign(st, st[env].outer.value, k, v, i);
    }
  }

  /**
   * eval.py:34-36: `(set! v e)` computes the value of `e`, then overwrites
   * `v` in the frame `find` locates, leaving every other frame as `e` left
   * it; when no frame binds `v` it fails and changes nothing more.
   */
  lemma SetOverwritesFound(v: Exp, e: Exp, env: nat, st: Store, fuel: nat, host: Host)
    requires !v.List?
    requires WellFormed(st) && env < |st| && HostSafe(host)
    ensures var (val, st1) := Eval(e, env, st, fuel, host);
      var (r, st2) := Eval(List([Sym("set!"), v, e]), env, st, fuel + 1, host);
      val.Ok? ==>
        && (Find(st1, env, v).None? ==> r == Err(AttributeError) && st2 == st1)
        && (Find(st1, env, v).Some? ==>
              var i := Find(st1, env, v).value;
              && r == Ok(NoneVal)
              && |st2| == |st1|
              && st2[i].vars == st1[i].vars[v := val.value]
              && (forall j :: 0 <= j < |st1| && j != i ==> st2[j] == st1[j])
              && Lookup(st2, env, v) == Ok(val.value))
  {
    var (val, st1) := Eval(e, env, st, fuel, host);
    if val.Ok? && Find(st1, env, v).Some? {
      AssignWellFormed(st1, Find(st1, env, v).value, v, val.value);
      FindAfterAssign(st1, env, v, val.value, Find(st1, env, v).value);
    }
  }

  /** eval.py:37-39: `(lambda parms body)` captures the current frame and never evaluates `body`. */
  lemma LambdaCapturesFrame(parms: Exp, body: Exp, env: nat, st: Store, fuel: nat, host: Host)
    requires WellFormed(st) && env < |st| && HostSafe(host)
    ensures Eval(List([Sym("lambda"), parms, body]), env, st, fuel + 1, host) == (Ok(Closure(parms, body, env)), st)
  {
  }

  /**
   * eval.py:40-43: an application evaluates the operator, then the
   * operands from left to right, each in the store the previous one left,
   * and then calls the operator's value; the first failure is the outcome.
   */
  lemma ApplicationOrder(op: Exp, operands: seq<Exp>, env: nat, st: Store, fuel: nat, host: Host)
    requires WellFormed(st) && env < |st| && HostSafe(host)
    requires op !in [Sym("quote"), Sym("if"), Sym("define"), Sym("set!"), Sym("lambda")]
    ensures var (p, st1) := Eval(op, env, st, fuel, host);
      var (args, st2) := EvalArgs(operands, env, st1, fuel, host);
      Eval(List([op] + operands), env, st, fuel + 1, host) ==
        if p.Err? then (Err(p.error), st1)
        else if args.Err? then (Err(args.error), st2)
        else Call(p.value, args.value, st2, fuel, host)
  {
    assert ([op] + operands)[0] == op && ([op] + operands)[1..] == operands;
  }

  /**
   * eval.py:15-16: calling a closure whose parameters are distinct names,
   * with one argument per parameter, evaluates its body in a new frame
   * whose outer frame is the closure's and which binds parameter `k` to
   * argument `k`.
   */
  lemma ClosureCallBinds(parms: seq<Exp>, body: Exp, outer: nat, args: seq<EVal>, st: Store, fuel: nat, host: Host)
    requires WellFormed(st) && outer < |st| && FitsAll(args, |st|) && HostSafe(host)
    requires |parms| == |args|
    requires forall j :: 0 <= j < |parms| ==> !parms[j].List?
    requires forall i, j :: 0 <= i < j < |parms| ==> parms[i] != parms[j]
    ensures CallVars(List(parms), args).Ok?
    ensures var vars := CallVars(List(parms), args).value;
      && (forall k :: 0 <= k < |parms| ==> parms[k] in vars && vars[parms[k]] == args[k])
      && WellFormed(st + [FrameData(vars, Some(outer))])
      && Call(Closure(List(parms), body, outer), args, st, fuel, host)
         == Eval(body, |st|, st + [FrameData(vars, Some(outer))], fuel, host)
  {
    if parms == [] {
      assert CallVars(List(parms), args) == Ok(map[]);
    } else {
      ZipBinds(parms, args, map[], 0);
    }
    var vars := CallVars(List(parms), args).value;
    forall k | 0 <= k < |parms|
      ensures parms[k] in vars && vars[parms[k]] == args[k]
    {
      ZipBinds(parms, args, map[], k);
    }
    ZipFits(parms, args, map[], |st| + 1);
    PushWellFormed(st, FrameData(vars, Some(outer)));
  }

  // ---------------------------------------------------------------------
  // Fuel
  // ---------------------------------------------------------------------

  /** An evaluation that does not run out of fuel gives the same answer with more fuel. */
  lemma {:induction false} EvalFuel(x: Exp, env: nat, st: Store, fuel: nat, host: Host)
    requires WellFormed(st) && env < |st| && HostSafe(host)
    ensures Eval(x, env, st, fuel, host).0 != Err(RecursionError) ==>
      Eval(x, env, st, fuel + 1, host) == Eval(x, env, st, fuel, host)
    decreases fuel, 0, 0
  {
    if fuel > 0 && x.List? && x.items != [] {
      var items := x.items;
      if items[0] == Sym("quote") {
      } else if items[0] == Sym("if") {
        IfFuel(items, env, st, fuel - 1, host);
      } else if items[0] == Sym("define") {
        DefineFuel(items, env, st, fuel - 1, host);
      } else if items[0] == Sym("set!") {
        SetFuel(items, env, st, fuel - 1, host);
      } else if items[0] == Sym("lambda") {
      } else {
        ApplyFuel(items, env, st, fuel - 1, host);
      }
    }
  }

  lemma {:induction false} IfFuel(items: seq<Exp>, env: nat, st: Store, fuel: nat, host: Host)
    requires WellFormed(st) && env < |st| && HostSafe(host)
    ensures EvalIf(items, env, st, fuel, host).0 != Err(RecursionError) ==>
      EvalIf(items, env, st, fuel + 1, host) == EvalIf(items, env, st, fuel, host)
    decreases fuel, 1, 0
  {
    if |items| == 4 {
      EvalFuel(items[1], env, st, fuel, host);
      var (test, st1) := Eval(items[1], env, st, fuel, host);
      if test.Ok? {
        EvalFuel(if Truthy(test.value) then items[2] else items[3], env, st1, fuel, host);
      }
    }
  }

  lemma {:induction false} DefineFuel(items: seq<Exp>, env: nat, st: Store, fuel: nat, host: Host)
    requires WellFormed(st) && env < |st| && HostSafe(host)
    ensures EvalDefine(items, env, st, fuel, host).0 != Err(RecursionError) ==>
      EvalDefine(items, env, st, fuel + 1, host) == EvalDefine(items, env, st, fuel, host)
    decreases fuel, 1, 0
  {
    if |items| == 3 {
      EvalFuel(items[2], env, st, fuel, host);
    }
  }

  lemma {:induction false} SetFuel(items: seq<Exp>, env: nat, st: Store, fuel: nat, host: Host)
    requires WellFormed(st) && env < |st| && HostSafe(host)
    ensures EvalSet(items, env, st, fuel, host).0 != Err(RecursionError) ==>
      EvalSet(items, env, st, fuel + 1, host) == EvalSet(items, env, st, fuel, host)
    decreases fuel, 1, 0
  {
    if |items| == 3 {
      EvalFuel(items[2], env, st, fuel, host);
    }
  }

  lemma {:induction false} ApplyFuel(items: seq<Exp>, env: nat, st: Store, fuel: nat, host: Host)
    requires items != []
    requires WellFormed(st) && env < |st| && HostSafe(host)
    ensures EvalApply(items, env, st, fuel, host).0 != Err(RecursionError) ==>
      EvalApply(items, env, st, fuel + 1, host) == EvalApply(items, env, st, fuel, host)
    decreases fuel, 1, 0
  {
    EvalFuel(items[0], env, st, fuel, host);
    var (p, st1) := Eval(items[0], env, st, fuel, host);
    if p.Ok? {
      ArgsFuel(items[1..], env, st1, fuel, host);
      var (args, st2) := EvalArgs(items[1..], env, st1, fuel, host);
      if args.Ok? {
        CallFuel(p.value, args.value, st2, fuel, host);
      }
    }
  }

  lemma {:induction false} ArgsFuel(args: seq<Exp>, env: nat, st: Store, fuel: nat, host: Host)
    requires WellFormed(st) && env < |st| && HostSafe(host)
    ensures EvalArgs(args, env, st, fuel, host).0 != Err(RecursionError) ==>
      EvalArgs(args, env, st, fuel + 1, host) == EvalArgs(args, env, st, fuel, host)
    decreases fuel, 0, |args| + 1
  {
    if args != [] {
      EvalFuel(args[0], env, st, fuel, host);
      var (v, st1) := Eval(args[0], env, st, fuel, host);
      if v.Ok? {
        ArgsFuel(args[1..], env, st1, fuel, host);
      }
    }
  }

  lemma {:induction false} CallFuel(p: EVal, args: seq<EVal>, st: Store, fuel: nat, host: Host)
    requires WellFormed(st) && Fits(p, |st|) && FitsAll(args, |st|) && HostSafe(host)
    ensures Call(p, args, st, fuel, host).0 != Err(RecursionError) ==>
      Call(p, args, st, fuel + 1, host) == Call(p, args, st, fuel, host)
    decreases fuel, 0, 1
  {
    if p.Closure? && CallVars(p.parms, args).Ok? {
      var vars := CallVars(p.parms, args).value;
      ZipFits(ParamKeys(p.parms).value, args, map[], |st| + 1);
      PushWellFormed(st, FrameData(vars, Some(p.env)));
      EvalFuel(p.body, |st|, st + [FrameData(vars, Some(p.env))], fuel, host);
    }
  }

  // ---------------------------------------------------------------------
  // Examples
  // ---------------------------------------------------------------------

  /** A store holding one empty global frame. */
  function EmptyGlobal(): (st: Store)
    ensures WellFormed(st) && |st| == 1
  {
    [FrameData(map[], None)]
  }

  /** tests/test_eval.py:11 */
  lemma TenIsTen(host: Host)
    requires HostSafe(host)
    ensures Eval(Int(10), 0, EmptyGlobal(), 1, host).0 == Ok(Data(Int(10)))
  {
  }

  /** tests/test_eval.py:14: `(define r 10)` and then `r` gives 10. */
  lemma DefineThenRead(host: Host)
    requires HostSafe(host)
    ensures var (d, st1) := Eval(List([Sym("define"), Sym("r"), Int(10)]), 0, EmptyGlobal(), 2, host);
      && d == Ok(NoneVal)
      && Eval(Sym("r"), 0, st1, 1, host).0 == Ok(Data(Int(10)))
  {
    DefineBindsLocally(Sym("r"), Int(10), 0, EmptyGlobal(), 1, host);
  }

  /** A single number as the operand list evaluates to that number and changes nothing. */
  lemma OneNumberArgument(e: Exp, env: nat, st: Store, fuel: nat, host: Host)
    requires e.Int? || e.Real?
    requires WellFormed(st) && env < |st| && HostSafe(host)
    ensures EvalArgs([e], env, st, fuel + 1, host) == (Ok([Data(e)]), st)
  {
    NumberIsItself(e, env, st, fuel, host);
    assert [e][1..] == [];
    assert EvalArgs([], env, st, fuel + 1, host) == (Ok([]), st);
    assert [Data(e)] + [] == [Data(e)];
  }

  /** Calling `(lambda (x) x)` on one argument gives that argument back. */
  lemma IdentityCall(outer: nat, v: EVal, st: Store, fuel: nat, host: Host)
    requires WellFormed(st) && outer < |st| && Fits(v, |st|) && HostSafe(host)
    ensures Call(Closure(List([Sym("x")]), Sym("x"), outer), [v], st, fuel + 1, host).0 == Ok(v)
  {
    var x := Sym("x");
    ClosureCallBinds([x], x, outer, [v], st, fuel + 1, host);
    var vars := CallVars(List([x]), [v]).value;
    assert x in vars && vars[x] == v;
    var st1 := st + [FrameData(vars, Some(outer))];
    assert x in st1[|st|].vars;
    assert Lookup(st1, |st|, x) == Ok(v);
  }

  /**
   * eval.py:15-16 and 37-43: `((lambda (x) x) 5)` gives 5, in any frame
   * and with any recursion budget of at least three.
   */
  lemma IdentityApplied(e: Exp, env: nat, st: Store, fuel: nat, host: Host)
    requires e.Int? || e.Real?
    requires WellFormed(st) && env < |st| && HostSafe(host)
    ensures Eval(List([List([Sym("lambda"), List([Sym("x")]), Sym("x")]), e]), env, st, fuel + 3, host).0
      == Ok(Data(e))
  {
    var lam := List([Sym("lambda"), List([Sym("x")]), Sym("x")]);
    assert [lam, e] == [lam] + [e];
    ApplicationOrder(lam, [e], env, st, fuel + 2, host);
    LambdaCapturesFrame(List([Sym("x")]), Sym("x"), env, st, fuel + 1, host);
    OneNumberArgument(e, env, st, fuel + 1, host);
    IdentityCall(env, Data(e), st, fuel + 1, host);
  }
}
