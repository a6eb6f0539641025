/**
 * `evaluate` of schemy/eval.py as the code runs it: a recursive procedure
 * over the parse tree whose `define` and `set!` write into the dictionaries
 * of the environment chain in place.  The frames live in the `store` field
 * of an `Interpreter`; each method is proved to return what the functions of
 * module Evaluator say and to leave the store they say, so the laws proved
 * about those functions hold of this code.
 */
module Interpreters {
  import opened Errors
  import opened Reader
  import opened Evaluator

  class Interpreter {
    /** The frames of every environment created so far; frame 0 is the global one. */
    var store: Store
    /** The host functions the global environment provides. */
    const host: Host

    ghost predicate Valid()
      reads this
    {
      WellFormed(store) && HostSafe(host)
    }

    /** An interpreter whose only environment is an empty global one. */
    constructor (host: Host)
      requires HostSafe(host)
      ensures Valid()
      ensures store == [FrameData(map[], None)] && this.host == host
    {
      this.host := host;
      store := [FrameData(map[], None)];
    }

    /** eval.py:19-43 */
    method Evaluate(x: Exp, env: nat, fuel: nat) returns (r: Result<EVal>)
      requires Valid() && env < |store|
      modifies this
      ensures Valid()
      ensures (r, store) == Eval(x, env, old(store), fuel, host)
      decreases fuel, 0, 0
    {
      if fuel == 0 {
        return Err(RecursionError);
      }
      match x
      case Sym(_) =>
        r := Lookup(store, env, x);
      case Int(_) =>
        r := Ok(Data(x));
      case Real(_) =>
        r := Ok(Data(x));
      case List(items) =>
        if items == [] {
          r := Err(IndexError);
        } else if items[0] == Sym("quote") {
          r := if |items| == 2 then Ok(Data(items[1])) else Err(ValueError);
        } else if items[0] == Sym("if") {
          r := EvaluateIf(items, env, fuel - 1);
        } else if items[0] == Sym("define") {
          r := EvaluateDefine(items, env, fuel - 1);
        } else if items[0] == Sym("set!") {
          r := EvaluateSet(items, env, fuel - 1);
        } else if items[0] == Sym("lambda") {
          r := if |items| == 3 then Ok(Closure(items[1], items[2], env)) else Err(ValueError);
        } else {
          r := EvaluateApply(items, env, fuel - 1);
        }
    }

    /** eval.py:27-30 */
    method EvaluateIf(items: seq<Exp>, env: nat, fuel: nat) returns (r: Result<EVal>)
      requires Valid() && env < |store|
      modifies this
      ensures Valid()
      ensures (r, store) == EvalIf(items, env, old(store), fuel, host)
      decreases fuel, 1, 0
    {
      if |items| != 4 {
        return Err(ValueError);
      }
      var test := Evaluate(items[1], env, fuel);
      if test.Err? {
        return Err(test.error);
      }
      r := Evaluate(if Truthy(test.value) then items[2] else items[3], env, fuel);
    }

    /** eval.py:31-33: the value is bound in the current frame itself. */
    method EvaluateDefine(items: seq<Exp>, env: nat, fuel: nat) returns (r: Result<EVal>)
      requires Valid() && env < |store|
      modifies this
      ensures Valid()
      ensures (r, store) == EvalDefine(items, env, old(store), fuel, host)
      decreases fuel, 1, 0
    {
      if |items| != 3 {
        return Err(ValueError);
      }
      var v := Evaluate(items[2], env, fuel);
      if v.Err? {
        return Err(v.error);
      }
      if items[1].List? {
        return Err(Unhashable());
      }
      AssignWellFormed(store, env, items[1], v.value);
      store := Assign(store, env, items[1], v.value);
      r := Ok(NoneVal);
    }

    /** eval.py:34-36: the value is written into the frame `find` locates. */
    method EvaluateSet(items: seq<Exp>, env: nat, fuel: nat) returns (r: Result<EVal>)
      requires Valid() && env < |store|
      modifies this
      ensures Valid()
      ensures (r, store) == EvalSet(items, env, old(store), fuel, host)
      decreases fuel, 1, 0
    {
      if |items| != 3 {
        return Err(ValueError);
      }
      var v := Evaluate(items[2], env, fuel);
      if v.Err? {
        return Err(v.error);
      }
      if items[1].List? {
        return Err(Unhashable());
      }
      var found := Find(store, env, items[1]);
      if found.None? {
        return Err(AttributeError);
      }
      AssignWellFormed(store, found.value, items[1], v.value);
      store := Assign(store, found.value, items[1], v.value);
      r := Ok(NoneVal);
    }

    /** eval.py:40-43 */
    method EvaluateApply(items: seq<Exp>, env: nat, fuel: nat) returns (r: Result<EVal>)
      requires items != []
      requires Valid() && env < |store|
      modifies this
      ensures Valid()
      ensures (r, store) == EvalApply(items, env, old(store), fuel, host)
      decreases fuel, 1, 0
    {
      var p := Evaluate(items[0], env, fuel);
      if p.Err? {
        return Err(p.error);
      }
      var args := EvaluateArgs(items[1..], env, fuel);
      if args.Err? {
        return Err(args.error);
      }
      r := CallProcedure(p.value, args.value, fuel);
    }

    /**
     * eval.py:42: the operands are evaluated one after another, from the
     * left, each in the store the previous one left; the first failure ends
     * the loop.
     */
    method EvaluateArgs(args: seq<Exp>, env: nat, fuel: nat) returns (r: Result<seq<EVal>>)
      requires Valid() && env < |store|
      modifies this
      ensures Valid()
      ensures (r, store) == EvalArgs(args, env, old(store), fuel, host)
      decreases fuel, 0, |args| + 1
    {
      var vals: seq<EVal> := [];
      var i := 0;
      assert args[0..] == args;
      ghost var all := EvalArgs(args, env, store, fuel, host);
      assert all.0.Ok? ==> [] + all.0.value == all.0.value;
      while i < |args|
        invariant 0 <= i <= |args|
        invariant Valid() && env < |store|
        invariant EvalArgs(args, env, old(store), fuel, host) == Prefixed(vals, EvalArgs(args[i..], env, store, fuel, host))
      {
        var v := Evaluate(args[i], env, fuel);
        if v.Err? {
          return Err(v.error);
        }
        assert args[i..][1..] == args[i + 1..];
        PrefixedTwice(vals, [v.value], EvalArgs(args[i + 1..], env, store, fuel, host));
        vals := vals + [v.value];
        i := i + 1;
      }
      assert vals + [] == vals;
      r := Ok(vals);
    }

    /**
     * eval.py:15-16 and 43: a closure (`Procedure.__call__`) evaluates its
     * body in a new frame, added to the store, whose outer frame is the
     * closure's and which binds its parameters to the arguments.
     */
    method CallProcedure(p: EVal, args: seq<EVal>, fuel: nat) returns (r: Result<EVal>)
      requires Valid() && Fits(p, |store|) && FitsAll(args, |store|)
      modifies this
      ensures Valid()
      ensures (r, store) == Call(p, args, old(store), fuel, host)
      decreases fuel, 0, 1
    {
      match p
      case Closure(parms, body, outer) =>
        var vars := CallVars(parms, args);
        if vars.Err? {
          return Err(vars.error);
        }
        ZipFits(ParamKeys(parms).value, args, map[], |store| + 1);
        PushWellFormed(store, FrameData(vars.value, Some(outer)));
        var frame := |store|;
        store := store + [FrameData(vars.value, Some(outer))];
        r := Evaluate(body, frame, fuel);
      case Builtin(id) =>
        r := host(id, args);
      case _ =>
        r := Err(TypeError("'" + PyTypeName(p) + "' object is not callable"));
    }
  }

  /** The outcome of evaluating further operands after `vals` were evaluated. */
  function Prefixed(vals: seq<EVal>, rest: (Result<seq<EVal>>, Store)): (Result<seq<EVal>>, Store) {
    (if rest.0.Err? then rest.0 else Ok(vals + rest.0.value), rest.1)
  }

  lemma PrefixedTwice(vals: seq<EVal>, more: seq<EVal>, rest: (Result<seq<EVal>>, Store))
    ensures Prefixed(vals, Prefixed(more, rest)) == Prefixed(vals + more, rest)
  {
    if rest.0.Ok? {
      assert vals + (more + rest.0.value) == vals + more + rest.0.value;
    }
  }
}
