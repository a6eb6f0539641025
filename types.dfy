/**
 * The default behaviour of `SchemeValue` (schemy/types.py) and the
 * overrides the shown subclasses make: type predicates, operations that
 * reject their receiver, `cons`, `scheme_coerce` and `get_actual_value`.
 *
 * A predicate answers with a Scheme boolean, so `Ask` returns a `Value`.
 * An operation that raises returns the `Error` it raises.
 */
module Types {
  import opened Errors
  import opened Environments
  import opened Values
  import opened Exceptions
  import Numerals

  /** Evaluation of an expression in a frame, which eval.py does not define. */
  type Evaluator = (Value, Frame?<Value>) -> Result<Value>

  /** The type predicates of types.py:33-34 and 54-64, 124-134. */
  datatype Query = BooleanP | TomP | PairP | NullP | ListP | StringP | SymbolP | NumberP | IntegerP

  /**
   * types.py:33-34, 54-64, 124-134, with the `booleanp` overrides of
   * types.py:193-194 and 208-209.
   */
  function Ask(q: Query, v: Value): (r: Value)
    ensures r == SchemeTrue || r == SchemeFalse
  {
    match q
    case BooleanP => if v.SchemeTrue? || v.SchemeFalse? then SchemeTrue else SchemeFalse
    case TomP => SchemeTrue
    case _ => SchemeFalse
  }

  /** types.py:33-34, 193-194, 208-209: `booleanp` is true exactly for the two booleans. */
  lemma BooleanPIff(v: Value)
    ensures Truthy(Ask(BooleanP, v)) <==> v == SchemeTrue || v == SchemeFalse
  {
  }

  /** types.py:57-64, 124-134: the remaining type predicates answer `scheme_false` for every shown class. */
  lemma DefaultPredicatesFalse(q: Query, v: Value)
    requires q != BooleanP && q != TomP
    ensures Ask(q, v) == SchemeFalse && !Truthy(Ask(q, v))
  {
  }

  /** The operations of types.py:66-122 that only reject their receiver. */
  datatype Op =
    | Length | Neg | Quo | Modulo | Rem | Floor | Ceil
    | NumEq | Lt | Gt | Le | Ge | EvenP | OddP | ZeroP
    | Append | Car | Cdr

  /** The operation name each default uses in its message (`neg` reports "sub"). */
  function OpName(op: Op): string {
    match op
    case Length => "length"
    case Neg => "sub"
    case Quo => "quotient"
    case Modulo => "modulo"
    case Rem => "remainder"
    case Floor => "floor"
    case Ceil => "ceil"
    case NumEq => "="
    case Lt => "<"
    case Gt => ">"
    case Le => "<="
    case Ge => ">="
    case EvenP => "even?"
    case OddP => "odd?"
    case ZeroP => "zero?"
    case Append => "append"
    case Car => "car"
    case Cdr => "cdr"
  }

  /**
   * types.py:66-122: the default operations never return a value; each
   * raises the wrong-type error for argument 0 (the receiver), naming the
   * operation.  The second operand of a binary operation is ignored.
   */
  function Operate(op: Op, v: Value, y: Option<Value>): (r: Result<Value>)
    ensures r.Err? && r.error.SchemeError?
    ensures r.error == BadType(v, 0, OpName(op))
  {
    Err(BadType(v, 0, OpName(op)))
  }

  lemma Middle(head: string, middle: string, t1: string, t2: string)
    ensures (head + middle + t1 + t2)[|head|..|head| + |middle|] == middle
  {
    assert head + middle + t1 + t2 == head + (middle + (t1 + t2));
  }

  lemma OpNamesDistinct(a: Op, b: Op)
    requires OpName(a) == OpName(b)
    ensures a == b
  {
  }

  /**
   * types.py:66-122: the error a default operation raises on a receiver
   * tells which operation was called, whatever the second operand.
   */
  lemma OperateIdentifiesOp(a: Op, b: Op, v: Value, y: Option<Value>, z: Option<Value>)
    requires Operate(a, v, y) == Operate(b, v, z)
    ensures a == b
  {
    var head := "argument " + Numerals.IntText(0) + " of ";
    var m := BadTypeMessage(v, 0, OpName(a));
    assert m == BadTypeMessage(v, 0, OpName(b));
    Middle(head, OpName(a), " has wrong type ", ClassPart(v));
    Middle(head, OpName(b), " has wrong type ", ClassPart(v));
    assert |OpName(a)| == |OpName(b)|;
    OpNamesDistinct(a, b);
  }

  /** types.py:112-113 */
  function Cons(v: Value, y: Value): (r: Value)
    ensures r.Pair? && r.first == v && r.rest == y
  {
    Pair(v, y)
  }

  /** The message `evaluate_arguments` and `apply` raise on a value that is not a procedure. */
  function NonFunction(v: Value): Error {
    SchemeError("attempt to call something of non-function type (" + TypeName(v) + ")")
  }

  /**
   * types.py:156-161 and procedure.py:98-99: the value to use for `v`;
   * a thunk evaluates its body in its environment each time it is asked.
   */
  function ActualValue(v: Value, ev: Evaluator): (r: Result<Value>)
    ensures !v.Thunk? ==> r == Ok(v)
    ensures v.Thunk? ==> r == ev(v.body, v.env)
  {
    if v.Thunk? then ev(v.body, v.env) else Ok(v)
  }

  /**
   * An instance of Python's `numbers.Number`: `bool` and `int` are
   * integral, and a `float` or the parts of a `complex` are given by the
   * real number they stand for.
   */
  datatype Number = Boolean(b: bool) | Integral(i: int) | Floating(f: real) | Complex(re: real, im: real)

  /** An argument of `scheme_coerce`: a Scheme value or a host value. */
  datatype HostValue = SchemeObject(v: Value) | HostNumber(n: Number) | HostString(s: string) | HostObject(typeName: string)

  /**
   * types.py:164-177.  Converting a number or a string goes through
   * `scnum` and `intern`, which are parameters here.  Any other host value
   * reaches a `.format` call on the exception object itself, which raises an
   * AttributeError before the intended TypeError is raised.
   */
  function Coerce(x: HostValue, scnum: Number -> Value, intern: string -> Value): (r: Result<Value>)
    ensures x.SchemeObject? ==> r == Ok(x.v)
    ensures x.HostNumber? ==> r == Ok(scnum(x.n))
    ensures x.HostString? ==> r == Ok(intern(x.s))
    ensures r.Err? <==> x.HostObject?
    ensures r.Err? ==> r.error == AttributeError
  {
    match x
    case SchemeObject(v) => Ok(v)
    case HostNumber(n) => Ok(scnum(n))
    case HostString(s) => Ok(intern(s))
    case HostObject(_) => Err(AttributeError)
  }

  /**
   * types.py:164-177: the value `scheme_coerce` returns is a Scheme value,
   * and coercing it again returns it unchanged.
   */
  lemma CoerceIdempotent(x: HostValue, scnum: Number -> Value, intern: string -> Value)
    requires Coerce(x, scnum, intern).Ok?
    ensures Coerce(SchemeObject(Coerce(x, scnum, intern).value), scnum, intern) == Coerce(x, scnum, intern)
  {
  }

  /** exception.py:15-22 with types.py:33-34: checking for a boolean accepts exactly the two booleans. */
  lemma CheckBoolean(v: Value, k: int, name: string)
    ensures CheckType(v, x => Ask(BooleanP, x), k, name) ==
      if v == SchemeTrue || v == SchemeFalse then Ok(v) else Err(BadType(v, k, name))
  {
  }

  /** exception.py:15-22 with types.py:57-64: a check against a default predicate always fails. */
  lemma CheckDefaultFails(q: Query, v: Value, k: int, name: string)
    requires q != BooleanP && q != TomP
    ensures CheckType(v, x => Ask(q, x), k, name) == Err(BadType(v, k, name))
  {
    DefaultPredicatesFalse(q, v);
  }
}
