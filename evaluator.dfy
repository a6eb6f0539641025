/**
 * The evaluator of schemy/eval.py: `evaluate` over the parse trees of the
 * reader, with the forms `quote`, `if`, `define`, `set!` and `lambda`, and
 * application of closures (`Procedure`) and host functions.
 *
 * eval.py imports its environment class `Env` and `global_env` from a
 * module that does not define them; they are not part of this model.  In
 * their place an environment is a frame of a store: a dictionary from keys
 * to values plus the index of its outer frame.  `define` and `set!` update a
 * frame of the store, so every evaluation returns the store it leaves
 * behind, whether it returned or raised.  A closure call builds its frame as
 * the `Env(parms, args, outer)` of eval.py:16 is used there: the parameters
 * are zipped with the arguments, stopping at the shorter.
 *
 * Evaluation may recurse forever, so it carries a fuel bound; running out
 * stands for Python's recursion limit and raises RecursionError.
 */
module Evaluator {
  import opened Errors
  import opened Numerals
  import opened Reader

  /** The values `evaluate` produces. */
  datatype EVal =
    | Data(e: Exp)                              // a number, a symbol (a str) or a list
    | Bool(b: bool)                             // a host boolean, as host functions return
    | NoneVal                                   // what `define` and `set!` return
    | Closure(parms: Exp, body: Exp, env: nat)  // eval.py:8-13
    | Builtin(id: nat)                          // a host function of the global environment

  datatype FrameData = FrameData(vars: map<Exp, EVal>, outer: Option<nat>)

  type Store = seq<FrameData>

  /** The host functions, by number; they cannot call back into `evaluate`. */
  type Host = (nat, seq<EVal>) -> Result<EVal>

  /** Python's truth value of a value (eval.py:29). */
  predicate Truthy(v: EVal) {
    match v
    case Data(Int(i)) => i != 0
    case Data(Real(t)) => !IsZeroFloat(t)
    case Data(Sym(s)) => s != []
    case Data(List(xs)) => xs != []
    case Bool(b) => b
    case NoneVal => false
    case Closure(_, _, _) => true
    case Builtin(_) => true
  }

  /**
   * eval.py:29: Python's falsy values are the zero numbers, the empty
   * string and list, `False` and `None`; every other value is true.
   */
  lemma FalsyValues(v: EVal)
    ensures !Truthy(v) <==>
      || v == Data(Int(0))
      || (v.Data? && v.e.Real? && IsZeroFloat(v.e.text))
      || v == Data(Sym([]))
      || v == Data(List([]))
      || v == Bool(false)
      || v == NoneVal
  {
  }

  /**
   * eval.py:29: a float is false when `float` of its literal is 0.0, which
   * a tiny non-zero literal such as `1e-400` also is.
   */
  lemma TinyFloatIsFalse(n: string)
    requires DigitRun(n)
    ensures DigitsValue(n) >= 400 ==> !Truthy(Data(Real("1e-" + n)))
    ensures DigitsValue(n) <= 300 ==> Truthy(Data(Real("1e-" + n)))
  {
    NegativePowerIsZero(n);
  }

  /** Python's `type(v).__name__`. */
  function PyTypeName(v: EVal): string {
    match v
    case Data(Int(_)) => "int"
    case Data(Real(_)) => "float"
    case Data(Sym(_)) => "str"
    case Data(List(_)) => "list"
    case Bool(_) => "bool"
    case NoneVal => "NoneType"
    case Closure(_, _, _) => "Procedure"
    case Builtin(_) => "builtin_function_or_method"
  }

  /** A Python list cannot be a dictionary key. */
  function Unhashable(): Error {
    TypeError("unhashable type: 'list'")
  }

  // ---------------------------------------------------------------------
  // The store
  // ---------------------------------------------------------------------

  predicate Fits(v: EVal, n: nat) {
    v.Closure? ==> v.env < n
  }

  predicate FitsAll(vs: seq<EVal>, n: nat) {
    forall i :: 0 <= i < |vs| ==> Fits(vs[i], n)
  }

  /** Frame `i` of a store of `n` frames: its outer frame is older, and its closures refer to frames of the store. */
  predicate FrameFits(f: FrameData, i: nat, n: nat) {
    && (f.outer.Some? ==> f.outer.value < i)
    && forall k :: k in f.vars ==> Fits(f.vars[k], n)
  }

  predicate WellFormed(st: Store) {
    forall i :: 0 <= i < |st| ==> FrameFits(st[i], i, |st|)
  }

  /** `st2` keeps every frame of `st` with the same outer frame, and may add frames. */
  predicate Extends(st: Store, st2: Store) {
    && |st| <= |st2|
    && forall i :: 0 <= i < |st| ==> st2[i].outer == st[i].outer
  }

  /** The host functions never return a closure. */
  ghost predicate HostSafe(host: Host) {
    forall id, args :: host(id, args).Ok? ==> !host(id, args).value.Closure?
  }

  /** Sets `k` in frame `i`. */
  function Assign(st: Store, i: nat, k: Exp, v: EVal): (st2: Store)
    requires i < |st|
    ensures |st2| == |st|
    ensures st2[i].vars == st[i].vars[k := v] && st2[i].outer == st[i].outer
    ensures forall j :: 0 <= j < |st| && j != i ==> st2[j] == st[j]
  {
    st[i := st[i].(vars := st[i].vars[k := v])]
  }

  lemma AssignWellFormed(st: Store, i: nat, k: Exp, v: EVal)
    requires WellFormed(st) && i < |st| && Fits(v, |st|)
    ensures WellFormed(Assign(st, i, k, v)) && Extends(st, Assign(st, i, k, v))
  {
    var st2 := Assign(st, i, k, v);
    forall j | 0 <= j < |st2|
      ensures FrameFits(st2[j], j, |st2|)
    {
      assert FrameFits(st[j], j, |st|);
    }
  }

  lemma PushWellFormed(st: Store, f: FrameData)
    requires WellFormed(st) && FrameFits(f, |st|, |st| + 1)
    ensures WellFormed(st + [f]) && Extends(st, st + [f])
  {
    var st2 := st + [f];
    forall j | 0 <= j < |st2|
      ensures FrameFits(st2[j], j, |st2|)
    {
      if j < |st| {
        assert FrameFits(st[j], j, |st|);
      }
    }
  }

  /**
   * `Env.find` as eval.py:21 and 36 use it: the nearest frame, from `env`
   * outwards, whose dictionary holds `k`.
   */
  function Find(st: Store, env: nat, k: Exp): (r: Option<nat>)
    requires WellFormed(st) && env < |st|
    ensures r.Some? ==> r.value <= env && k in st[r.value].vars
    decreases env
  {
    if k in st[env].vars then Some(env)
    else if st[env].outer.None? then None
    else
      assert FrameFits(st[env], env, |st|);
      Find(st, st[env].outer.value, k)
  }

  /** Everything visible from frame `env`: each frame's bindings override its outer frame's. */
  ghost function Visible(st: Store, env: nat): map<Exp, EVal>
    requires WellFormed(st) && env < |st|
    decreases env
  {
    if st[env].outer.None? then st[env].vars
    else
      assert FrameFits(st[env], env, |st|);
      Visible(st, st[env].outer.value) + st[env].vars
  }

  /** eval.py:20-21: a symbol's value, from the nearest frame that binds it. */
  function Lookup(st: Store, env: nat, x: Exp): (r: Result<EVal>)
    requires WellFormed(st) && env < |st|
    ensures r.Ok? ==> Fits(r.value, |st|)
  {
    match Find(st, env, x)
    case None => Err(AttributeError)
    case Some(i) =>
      assert FrameFits(st[i], i, |st|);
      Ok(st[i].vars[x])
  }

  /**
   * eval.py:20-21 with `Env.find`: `Find` answers from the nearest frame of
   * the chain, so inner bindings shadow outer ones, and finds nothing only
   * when no frame binds the key.
   */
  lemma {:induction false} FindIsVisible(st: Store, env: nat, k: Exp)
    requires WellFormed(st) && env < |st|
    ensures Find(st, env, k).Some? <==> k in Visible(st, env)
    ensures Find(st, env, k).Some? ==> st[Find(st, env, k).value].vars[k] == Visible(st, env)[k]
    decreases env
  {
    if k !in st[env].vars && st[env].outer.Some? {
      assert FrameFits(st[env], env, |st|);
      FindIsVisible(st, st[env].outer.value, k);
    }
  }

  // ---------------------------------------------------------------------
  // Closure frames
  // ---------------------------------------------------------------------

  /** What iterating over the parameters yields: a list's elements, a string's characters. */
  function ParamKeys(parms: Exp): Result<seq<Exp>> {
    match parms
    case List(items) => Ok(items)
    case Sym(name) => Ok(seq(|name|, i requires 0 <= i < |name| => Sym([name[i]])))
    case Int(_) => Err(TypeError("'int' object is not iterable"))
    case Real(_) => Err(TypeError("'float' object is not iterable"))
  }

  /** `dict.update(zip(keys, vals))`: pairs up to the shorter sequence; a later key overrides. */
  function Zip(keys: seq<Exp>, vals: seq<EVal>, m: map<Exp, EVal>): (r: Result<map<Exp, EVal>>)
    ensures r.Ok? <==> forall j :: 0 <= j < |keys| && j < |vals| ==> !keys[j].List?
    ensures r.Ok? ==> forall k :: k in r.value <==> k in m || k in keys[..Shorter(keys, vals)]
    decreases |keys|
  {
    if keys == [] || vals == [] then Ok(m)
    else if keys[0].List? then Err(Unhashable())
    else Zip(keys[1..], vals[1..], m[keys[0] := vals[0]])
  }

  /** The number of pairs `zip(keys, vals)` makes. */
  function Shorter(keys: seq<Exp>, vals: seq<EVal>): (n: nat)
    ensures n <= |keys| && n <= |vals|
  {
    if |keys| < |vals| then |keys| else |vals|
  }

  /**
   * The bindings of a call frame (eval.py:16): a number cannot be iterated,
   * a symbol binds one name per character, and a list of names fails only
   * when a name that gets an argument is itself a list.
   */
  function CallVars(parms: Exp, args: seq<EVal>): (r: Result<map<Exp, EVal>>)
    ensures parms.Int? ==> r == Err(TypeError("'int' object is not iterable"))
    ensures parms.Real? ==> r == Err(TypeError("'float' object is not iterable"))
    ensures parms.Sym? ==> r.Ok?
    ensures parms.List? ==> (r.Ok? <==> forall j :: 0 <= j < |parms.items| && j < |args| ==> !parms.items[j].List?)
  {
    var keys :- ParamKeys(parms);
    Zip(keys, args, map[])
  }

  lemma {:induction false} ZipFits(keys: seq<Exp>, vals: seq<EVal>, m: map<Exp, EVal>, n: nat)
    requires FitsAll(vals, n) && forall k :: k in m ==> Fits(m[k], n)
    ensures Zip(keys, vals, m).Ok? ==> forall k :: k in Zip(keys, vals, m).value ==> Fits(Zip(keys, vals, m).value[k], n)
    decreases |keys|
  {
    if keys != [] && vals != [] && !keys[0].List? {
      ZipFits(keys[1..], vals[1..], m[keys[0] := vals[0]], n);
    }
  }

  /**
   * With distinct parameters that are not lists, and as many arguments as
   * parameters, parameter `k` is bound to argument `k`.
   */
  lemma {:induction false} ZipBinds(keys: seq<Exp>, vals: seq<EVal>, m: map<Exp, EVal>, k: nat)
    requires |keys| == |vals| && k < |keys|
    requires forall j :: 0 <= j < |keys| ==> !keys[j].List?
    requires forall j :: k < j < |keys| ==> keys[j] != keys[k]
    ensures Zip(keys, vals, m).Ok?
    ensures keys[k] in Zip(keys, vals, m).value && Zip(keys, vals, m).value[keys[k]] == vals[k]
    decreases |keys|
  {
    if k == 0 {
      ZipKeeps(keys[1..], vals[1..], m[keys[0] := vals[0]], keys[0]);
    } else {
      ZipBinds(keys[1..], vals[1..], m[keys[0] := vals[0]], k - 1);
    }
  }

  lemma {:induction false} ZipKeeps(keys: seq<Exp>, vals: seq<EVal>, m: map<Exp, EVal>, s: Exp)
    requires |keys| == |vals| && s !in keys && s in m
    requires forall j :: 0 <= j < |keys| ==> !keys[j].List?
    ensures Zip(keys, vals, m).Ok? && s in Zip(keys, vals, m).value && Zip(keys, vals, m).value[s] == m[s]
    decreases |keys|
  {
    if keys != [] {
      ZipKeeps(keys[1..], vals[1..], m[keys[0] := vals[0]], s);
    }
  }

  // ---------------------------------------------------------------------
  // Evaluation
  // ---------------------------------------------------------------------

  /**
   * eval.py:19-43: what `evaluate(x, env)` returns or raises, with the
   * store it leaves behind.  The store only grows, never changes an outer
   * frame, and stays well formed.
   */
  function Eval(x: Exp, env: nat, st: Store, fuel: nat, host: Host): (r: (Result<EVal>, Store))
    requires WellFormed(st) && env < |st| && HostSafe(host)
    ensures Extends(st, r.1) && WellFormed(r.1)
    ensures r.0.Ok? ==> Fits(r.0.value, |r.1|)
    decreases fuel, 0, 0
  {
    if fuel == 0 then (Err(RecursionError), st)
    else match x
      case Sym(_) => (Lookup(st, env, x), st)
      case Int(_) => (Ok(Data(x)), st)
      case Real(_) => (Ok(Data(x)), st)
      case List(items) =>
        if items == [] then (Err(IndexError), st)
        else if items[0] == Sym("quote") then
          (if |items| == 2 then Ok(Data(items[1])) else Err(ValueError), st)
        else if items[0] == Sym("if") then EvalIf(items, env, st, fuel - 1, host)
        else if items[0] == Sym("define") then EvalDefine(items, env, st, fuel - 1, host)
        else if items[0] == Sym("set!") then EvalSet(items, env, st, fuel - 1, host)
        else if items[0] == Sym("lambda") then
          (if |items| == 3 then Ok(Closure(items[1], items[2], env)) else Err(ValueError), st)
        else EvalApply(items, env, st, fuel - 1, host)
  }

  /** eval.py:27-30 */
  function EvalIf(items: seq<Exp>, env: nat, st: Store, fuel: nat, host: Host): (r: (Result<EVal>, Store))
    requires WellFormed(st) && env < |st| && HostSafe(host)
    ensures Extends(st, r.1) && WellFormed(r.1)
    ensures r.0.Ok? ==> Fits(r.0.value, |r.1|)
    decreases fuel, 1, 0
  {
    if |items| != 4 then (Err(ValueError), st)
    else
      var (test, st1) := Eval(items[1], env, st, fuel, host);
      if test.Err? then (Err(test.error), st1)
      else Eval(if Truthy(test.value) then items[2] else items[3], env, st1, fuel, host)
  }

  /** eval.py:31-33 */
  function EvalDefine(items: seq<Exp>, env: nat, st: Store, fuel: nat, host: Host): (r: (Result<EVal>, Store))
    requires WellFormed(st) && env < |st| && HostSafe(host)
    ensures Extends(st, r.1) && WellFormed(r.1)
    ensures r.0.Ok? ==> Fits(r.0.value, |r.1|)
    decreases fuel, 1, 0
  {
    if |items| != 3 then (Err(ValueError), st)
    else
      var (v, st1) := Eval(items[2], env, st, fuel, host);
      if v.Err? then (Err(v.error), st1)
      else if items[1].List? then (Err(Unhashable()), st1)
      else
        AssignWellFormed(st1, env, items[1], v.value);
        (Ok(NoneVal), Assign(st1, env, items[1], v.value))
  }

  /** eval.py:34-36: the value is computed before the frame holding the name is looked for. */
  function EvalSet(items: seq<Exp>, env: nat, st: Store, fuel: nat, host: Host): (r: (Result<EVal>, Store))
    requires WellFormed(st) && env < |st| && HostSafe(host)
    ensures Extends(st, r.1) && WellFormed(r.1)
    ensures r.0.Ok? ==> Fits(r.0.value, |r.1|)
    decreases fuel, 1, 0
  {
    if |items| != 3 then (Err(ValueError), st)
    else
      var (v, st1) := Eval(items[2], env, st, fuel, host);
      if v.Err? then (Err(v.error), st1)
      else if items[1].List? then (Err(Unhashable()), st1)
      else match Find(st1, env, items[1])
        case None => (Err(AttributeError), st1)
        case Some(i) =>
          AssignWellFormed(st1, i, items[1], v.value);
          (Ok(NoneVal), Assign(st1, i, items[1], v.value))
  }

  /** eval.py:40-43: the operator, then the operands from left to right, then the call. */
  function EvalApply(items: seq<Exp>, env: nat, st: Store, fuel: nat, host: Host): (r: (Result<EVal>, Store))
    requires items != []
    requires WellFormed(st) && env < |st| && HostSafe(host)
    ensures Extends(st, r.1) && WellFormed(r.1)
    ensures r.0.Ok? ==> Fits(r.0.value, |r.1|)
    decreases fuel, 1, 0
  {
    var (p, st1) := Eval(items[0], env, st, fuel, host);
    if p.Err? then (Err(p.error), st1)
    else
      var (args, st2) := EvalArgs(items[1..], env, st1, fuel, host);
      if args.Err? then (Err(args.error), st2)
      else Call(p.value, args.value, st2, fuel, host)
  }

  /** eval.py:42: `[evaluate(arg, env) for arg in x[1:]]`. */
  function EvalArgs(args: seq<Exp>, env: nat, st: Store, fuel: nat, host: Host): (r: (Result<seq<EVal>>, Store))
    requires WellFormed(st) && env < |st| && HostSafe(host)
    ensures Extends(st, r.1) && WellFormed(r.1)
    ensures r.0.Ok? ==> |r.0.value| == |args| && FitsAll(r.0.value, |r.1|)
    decreases fuel, 0, |args| + 1
  {
    if args == [] then (Ok([]), st)
    else
      var (v, st1) := Eval(args[0], env, st, fuel, host);
      if v.Err? then (Err(v.error), st1)
      else
        var (vs, st2) := EvalArgs(args[1..], env, st1, fuel, host);
        if vs.Err? then (Err(vs.error), st2)
        else (Ok([v.value] + vs.value), st2)
  }

  /**
   * eval.py:15-16 and 43: a closure evaluates its body in a new frame, whose
   * outer frame is the closure's, binding its parameters to the arguments; a
   * host function is applied to the arguments; anything else is not callable.
   */
  function Call(p: EVal, args: seq<EVal>, st: Store, fuel: nat, host: Host): (r: (Result<EVal>, Store))
    requires WellFormed(st) && Fits(p, |st|) && FitsAll(args, |st|) && HostSafe(host)
    ensures Extends(st, r.1) && WellFormed(r.1)
    ensures r.0.Ok? ==> Fits(r.0.value, |r.1|)
    decreases fuel, 0, 1
  {
    match p
    case Closure(parms, body, outer) =>
      (match CallVars(parms, args)
       case Err(e) => (Err(e), st)
       case Ok(vars) =>
         var keys := ParamKeys(parms).value;
         ZipFits(keys, args, map[], |st| + 1);
         PushWellFormed(st, FrameData(vars, Some(outer)));
         Eval(body, |st|, st + [FrameData(vars, Some(outer))], fuel, host))
    case Builtin(id) => (host(id, args), st)
    case _ => (Err(TypeError("'" + PyTypeName(p) + "' object is not callable")), st)
  }
}
