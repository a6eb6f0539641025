/**
 * The wrong-type errors of schemy/exception.py.  A raised exception is the
 * `Error` value it carries; a function that always raises returns that value.
 */
module Exceptions {
  import opened Errors
  import opened Numerals
  import opened Values

  /** The part of the message naming the argument position and the operation. */
  function ArgumentPart(k: int, name: string): string {
    "argument " + IntText(k) + " of " + name
  }

  /** The part of the message naming the offending value's class. */
  function ClassPart(val: Value): string {
    "(" + TypeName(val) + ")"
  }

  function BadTypeMessage(val: Value, k: int, name: string): string {
    ArgumentPart(k, name) + " has wrong type " + ClassPart(val)
  }

  /**
   * exception.py:9-12: the error `bad_type` raises; it never returns a value.
   */
  function BadType(val: Value, k: int, name: string): (e: Error)
    ensures e.SchemeError? && |e.msg| > |ClassPart(val)|
  {
    SchemeError(BadTypeMessage(val, k, name))
  }

  lemma Framed(head: string, middle: string, tail: string)
    ensures head <= head + middle + tail
    ensures var m := head + middle + tail; m[|m| - |tail|..] == tail
  {
    assert head + middle + tail == head + (middle + tail);
  }

  /**
   * exception.py:11-12: the message begins with the argument position and
   * the operation's name, and ends with the offending value's class.
   */
  lemma BadTypeMessageParts(val: Value, k: int, name: string)
    ensures var m := BadType(val, k, name).msg;
      && ArgumentPart(k, name) <= m
      && m[|m| - |ClassPart(val)|..] == ClassPart(val)
  {
    Framed(ArgumentPart(k, name), " has wrong type ", ClassPart(val));
  }

  /**
   * exception.py:15-22: `val` itself when `test(val)` is a true value,
   * and the `bad_type` error otherwise.
   */
  function CheckType(val: Value, test: Value -> Value, k: int, name: string): (r: Result<Value>)
    ensures r.Ok? <==> Truthy(test(val))
    ensures r.Ok? ==> r.value == val
    ensures r.Err? ==> r.error == BadType(val, k, name)
  {
    if !Truthy(test(val)) then Err(BadType(val, k, name)) else Ok(val)
  }
}
