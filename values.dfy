/**
 * The Scheme values of schemy/types.py and schemy/procedure.py.
 *
 * Each constructor stands for one Python class: the three singletons, the
 * four procedure classes, and `Pair`, the class `cons` builds.  `Pair` is a
 * stand-in: its class is not part of this model, so only its construction
 * and its class name are used.  Formal parameter lists are sequences of
 * symbol names (the Scheme list `nil` is the empty sequence).
 */
module Values {
  import opened Environments

  datatype Value =
    | Okay
    | SchemeTrue
    | SchemeFalse
    | Pair(first: Value, rest: Value)
    | Primitive(fn: nat, useEnv: bool)
    | Lambda(formals: seq<string>, body: Value, env: Frame?<Value>)
    | Nu(formals: seq<string>, body: Value, env: Frame?<Value>)
    | Thunk(formals: seq<string>, body: Value, env: Frame?<Value>)
  {
    /** An instance of `Procedure` (procedure.py:8). */
    predicate IsProcedure() {
      Primitive? || Lambda? || Nu? || Thunk?
    }

    /** An instance of `LambdaProcedure`, whose subclasses are `NuProcedure` and `Thunk`. */
    predicate IsLambda() {
      Lambda? || Nu? || Thunk?
    }
  }

  /**
   * types.py:15-22 and 205-206: Python's truth value of a Scheme value.
   * The base class answers true and only `scheme_false` overrides it.
   */
  predicate Truthy(v: Value) {
    match v
    case SchemeFalse => false
    case _ => true
  }

  /** types.py:15-22 and 205-206: `scheme_false` is the only value a conditional treats as false. */
  lemma OnlyFalseIsFalse(v: Value)
    ensures !Truthy(v) <==> v == SchemeFalse
  {
  }

  /** Python's `type(v).__name__`. */
  function TypeName(v: Value): (name: string)
    ensures name != []
  {
    match v
    case Okay => "okay"
    case SchemeTrue => "scheme_true"
    case SchemeFalse => "scheme_false"
    case Pair(_, _) => "Pair"
    case Primitive(_, _) => "PrimitiveProcedure"
    case Lambda(_, _, _) => "LambdaProcedure"
    case Nu(_, _, _) => "NuProcedure"
    case Thunk(_, _, _) => "Thunk"
  }

  /** Distinct classes have distinct names. */
  lemma TypeNameIdentifiesClass(a: Value, b: Value)
    requires TypeName(a) == TypeName(b)
    ensures a.Okay? <==> b.Okay?
    ensures a.SchemeTrue? <==> b.SchemeTrue?
    ensures a.SchemeFalse? <==> b.SchemeFalse?
    ensures a.Pair? <==> b.Pair?
    ensures a.Primitive? <==> b.Primitive?
    ensures a.Lambda? <==> b.Lambda?
    ensures a.Nu? <==> b.Nu?
    ensures a.Thunk? <==> b.Thunk?
  {
  }

  /**
   * Python's `str(v)` for the values whose class defines it: `okay`
   * (types.py:180-185, through `__repr__`), the booleans (types.py:199-200,
   * 214-215) and primitives (procedure.py:27-28).
   */
  function SingletonText(v: Value): (s: string)
    requires v.Okay? || v.SchemeTrue? || v.SchemeFalse? || v.Primitive?
    ensures v.SchemeTrue? || v.SchemeFalse? <==> |s| == 2 && s[0] == '#'
  {
    match v
    case Okay => "okay"
    case SchemeTrue => "#t"
    case SchemeFalse => "#f"
    case Primitive(_, _) => "#[primitive]"
  }
}
