/**
 * The environment chain of schemy/environments.py: a frame is a dictionary
 * of bindings plus a parent frame (or none, for the global frame).
 *
 * Symbols are strings here (`intern` is the identity, since the interned
 * symbol type is not part of this model).  A frame's parent is never
 * reassigned after construction, so it is a `const`; the ghost `depth` and
 * `ancestors` give the length of the chain and the frames it reaches, which
 * is what `Lookup` reads.
 */
module Environments {
  import opened Errors

  /** Binds `formals[k]` to `vals[k]` in turn, starting from `m`; a later duplicate formal wins. */
  function Bind<V>(m: map<string, V>, formals: seq<string>, vals: seq<V>): map<string, V>
    decreases |formals|
  {
    if formals == [] || vals == [] then m
    else Bind(m[formals[0] := vals[0]], formals[1..], vals[1..])
  }

  /** A binding is kept unless a formal rebinds it. */
  lemma {:induction false} BindKeeps<V>(m: map<string, V>, formals: seq<string>, vals: seq<V>, s: string)
    requires |formals| == |vals|
    requires s !in formals
    ensures s in Bind(m, formals, vals) <==> s in m
    ensures s in m ==> Bind(m, formals, vals)[s] == m[s]
    decreases |formals|
  {
    if formals != [] {
      BindKeeps(m[formals[0] := vals[0]], formals[1..], vals[1..], s);
    }
  }

  /** The k-th formal is bound to the k-th value, unless a later formal has the same name. */
  lemma {:induction false} BindLast<V>(m: map<string, V>, formals: seq<string>, vals: seq<V>, k: nat)
    requires |formals| == |vals| && k < |formals|
    requires forall j :: k < j < |formals| ==> formals[j] != formals[k]
    ensures formals[k] in Bind(m, formals, vals)
    ensures Bind(m, formals, vals)[formals[k]] == vals[k]
    decreases |formals|
  {
    if k == 0 {
      assert formals[0] !in formals[1..];
      BindKeeps(m[formals[0] := vals[0]], formals[1..], vals[1..], formals[0]);
    } else {
      BindLast(m[formals[0] := vals[0]], formals[1..], vals[1..], k - 1);
    }
  }

  /** With distinct formals, the new bindings are exactly formal k to value k. */
  lemma BindDistinct<V>(formals: seq<string>, vals: seq<V>)
    requires |formals| == |vals|
    requires forall i, j :: 0 <= i < j < |formals| ==> formals[i] != formals[j]
    ensures forall k :: 0 <= k < |formals| ==> formals[k] in Bind(map[], formals, vals) && Bind(map[], formals, vals)[formals[k]] == vals[k]
    ensures forall s :: s !in formals ==> s !in Bind(map[], formals, vals)
  {
    forall k | 0 <= k < |formals|
      ensures formals[k] in Bind(map[], formals, vals) && Bind(map[], formals, vals)[formals[k]] == vals[k]
    {
      BindLast(map[], formals, vals, k);
    }
    forall s | s !in formals
      ensures s !in Bind(map[], formals, vals)
    {
      BindKeeps(map[], formals, vals, s);
    }
  }

  const ArityMessage := "different number of formal parameters and args"

  function UnknownIdentifier(sym: string): Error {
    SchemeError("unknown identifier: " + sym)
  }

  class Frame<V> {
    var bindings: map<string, V>
    const parent: Frame?<V>
    ghost const depth: nat
    ghost const ancestors: set<Frame<V>>

    ghost predicate Valid()
      decreases depth
    {
      if parent == null then depth == 0 && ancestors == {}
      else
        && depth == parent.depth + 1
        && ancestors == {parent} + parent.ancestors
        && parent.Valid()
    }

    /** Every frame above this one is strictly shallower, so none is this frame. */
    lemma {:induction false} AncestorsShallower()
      requires Valid()
      ensures forall a <- ancestors :: a.depth < depth
      ensures this !in ancestors
      decreases depth
    {
      if parent != null {
        parent.AncestorsShallower();
      }
    }

    /** environments.py:10-13 */
    constructor (parent: Frame?<V>)
      requires parent != null ==> parent.Valid()
      ensures Valid()
      ensures this.parent == parent && bindings == map[]
    {
      bindings := map[];
      this.parent := parent;
      depth := if parent == null then 0 else parent.depth + 1;
      ancestors := if parent == null then {} else {parent} + parent.ancestors;
    }

    /**
     * environments.py:22-23: equal to another frame when their parents are
     * equal, comparing parents with this same test (`None` equals only `None`).
     * `null` stands for any value that is not a frame.
     */
    predicate Equals(other: Frame?<V>): (b: bool)
      requires Valid()
      requires other != null ==> other.Valid()
      ensures b ==> other != null && depth == other.depth
      decreases depth
    {
      && other != null
      && (if parent == null then other.parent == null
          else other.parent != null && parent.Equals(other.parent))
    }

    /** environments.py:22-23: two frames are equal exactly when their chains have the same length; bindings never matter. */
    lemma {:induction false} EqualsIffSameDepth(other: Frame<V>)
      requires Valid() && other.Valid()
      ensures Equals(other) <==> depth == other.depth
      decreases depth
    {
      if parent != null && other.parent != null {
        parent.EqualsIffSameDepth(other.parent);
      }
    }

    /** environments.py:25-34 */
    function Lookup(sym: string): (r: Result<V>)
      requires Valid()
      reads this, ancestors
      ensures sym in bindings ==> r == Ok(bindings[sym])
      ensures r.Err? ==> r.error == UnknownIdentifier(sym)
      decreases depth
    {
      if sym in bindings then Ok(bindings[sym])
      else if parent != null then parent.Lookup(sym)
      else Err(UnknownIdentifier(sym))
    }

    /** Everything visible from this frame: each frame's bindings override its parent's. */
    ghost function Visible(): map<string, V>
      requires Valid()
      reads this, ancestors
      decreases depth
    {
      if parent == null then bindings else parent.Visible() + bindings
    }

    /**
     * environments.py:29-34: `lookup` answers from the nearest frame of the
     * chain that binds the symbol, so inner bindings shadow outer ones, and
     * fails with "unknown identifier" when no frame binds it.
     */
    lemma {:induction false} LookupIsVisible(sym: string)
      requires Valid()
      ensures sym in Visible() ==> Lookup(sym) == Ok(Visible()[sym])
      ensures sym !in Visible() ==> Lookup(sym) == Err(UnknownIdentifier(sym))
      decreases depth
    {
      if sym !in bindings && parent != null {
        parent.LookupIsVisible(sym);
      }
    }

    /** environments.py:33-34: `lookup` fails exactly when no frame of the chain binds the symbol. */
    lemma {:induction false} LookupFailsIffUnbound(sym: string)
      requires Valid()
      ensures Lookup(sym).Err? <==> sym !in bindings && forall a <- ancestors :: sym !in a.bindings
      decreases depth
    {
      if parent != null {
        parent.LookupFailsIffUnbound(sym);
      }
    }

    /** environments.py:58-63 */
    method Define(sym: string, val: V)
      requires Valid()
      modifies this
      ensures bindings == old(bindings)[sym := val]
      ensures Lookup(sym) == Ok(val)
      ensures forall s :: s != sym ==> Lookup(s) == old(Lookup(s))
    {
      AncestorsShallower();
      bindings := bindings[sym := val];
    }

    /** The frame at the root of the parent chain. */
    function Root(): (g: Frame<V>)
      requires Valid()
      ensures g.parent == null && g.Valid()
      ensures g == this || g in ancestors
      decreases depth
    {
      if parent == null then this else parent.Root()
    }

    /** environments.py:36-41 */
    method GlobalFrame() returns (g: Frame<V>)
      requires Valid()
      ensures g == Root()
    {
      g := this;
      while g.parent != null
        invariant g.Valid() && g.Root() == Root()
        decreases g.depth
      {
        g := g.parent;
      }
    }

    /** environments.py:36-41: the global frame of the global frame is itself. */
    lemma RootOfRoot()
      requires Valid()
      ensures Root().Root() == Root()
    {
    }

    /**
     * environments.py:43-55, returning the frame it builds: a fresh child of
     * this frame binding each formal to the value in the same position.
     */
    method MakeCallFrame(formals: seq<string>, vals: seq<V>) returns (r: Result<Frame<V>>)
      requires Valid()
      ensures |formals| != |vals| ==> r == Err(SchemeError(ArityMessage))
      ensures |formals| == |vals| ==> r.Ok? && fresh(r.value) && r.value.Valid()
      ensures |formals| == |vals| ==> r.value.parent == this && r.value.bindings == Bind(map[], formals, vals)
    {
      var frame := new Frame(this);
      if |formals| == |vals| {
        var fs, vs := formals, vals;
        while fs != [] && vs != []
          invariant |fs| == |vs|
          invariant frame.Valid() && frame.parent == this
          invariant Bind(frame.bindings, fs, vs) == Bind(map[], formals, vals)
          decreases |fs|
        {
          frame.Define(fs[0], vs[0]);
          fs, vs := fs[1..], vs[1..];
        }
        return Ok(frame);
      } else {
        return Err(SchemeError(ArityMessage));
      }
    }

    /**
     * environments.py:43-55 as written: the frame is built and then dropped,
     * since the method has no `return`, so a caller receives `None`.
     */
    method MakeCallFrameAsWritten(formals: seq<string>, vals: seq<V>) returns (r: Result<Frame?<V>>)
      requires Valid()
      ensures |formals| != |vals| ==> r == Err(SchemeError(ArityMessage))
      ensures |formals| == |vals| ==> r == Ok(null)
    {
      var built := MakeCallFrame(formals, vals);
      if built.Err? {
        return Err(built.error);
      }
      return Ok(null);
    }
  }
}
