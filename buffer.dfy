/**
 * The token buffer of schemy/buffer.py: a cursor over a sequence of token
 * lines that pulls further lines from its source on demand.
 *
 * The Python source is an iterator; here it is the sequence of lines it has
 * not yet produced.  `CurrentStep` and `PopStep` say, on a snapshot of the
 * buffer's fields, what `current()` and `pop()` return and leave behind;
 * the class `Buffer` keeps the fields and is proved against them.
 *
 * The code reads a field `current_lines` (buffer.py:30 and 43) but assigns
 * `current_line` (buffer.py:52 and 55).  The class models the evidently
 * intended single field `currentLine`; `CurrentAsWritten` models the code as
 * written, in which `more_on_line` is always false.
 */
module Buffers {
  import opened Errors

  /** A snapshot of the fields of a buffer. */
  datatype State<T> = State(index: nat, lines: seq<seq<T>>, source: seq<seq<T>>, currentLine: seq<T>)

  /** buffer.py:41-43 */
  predicate LineHasMore<T>(st: State<T>) {
    st.index < |st.currentLine|
  }

  predicate AllEmpty<T>(ls: seq<seq<T>>) {
    forall k :: 0 <= k < |ls| ==> ls[k] == []
  }

  /**
   * buffer.py:45-57: what `current()` returns, and the fields afterwards.
   * Empty lines are skipped; when the source runs out the result is `None`.
   */
  function CurrentStep<T>(st: State<T>): (r: (Option<T>, State<T>))
    ensures LineHasMore(st) ==> r == (Some(st.currentLine[st.index]), st)
    ensures r.0.Some? ==> LineHasMore(r.1) && r.0.value == r.1.currentLine[r.1.index]
    ensures r.0.None? <==> !LineHasMore(st) && AllEmpty(st.source)
    ensures r.0.None? ==> r.1 == st.(index := 0, source := [], currentLine := [], lines := st.lines + st.source)
    ensures r.1.lines + r.1.source == st.lines + st.source
    ensures st.lines <= r.1.lines
    decreases |st.source|
  {
    if LineHasMore(st) then (Some(st.currentLine[st.index]), st)
    else if st.source == [] then
      assert st.lines + st.source == st.lines;
      (None, st.(index := 0, currentLine := []))
    else
      var line := st.source[0];
      assert (st.lines + [line]) + st.source[1..] == st.lines + st.source;
      CurrentStep(State(0, st.lines + [line], st.source[1..], line))
  }

  /** buffer.py:33-39: `pop()` returns what `current()` returns and moves past it. */
  function PopStep<T>(st: State<T>): (r: (Option<T>, State<T>))
    ensures r.0.Some? ==> 0 < r.1.index <= |r.1.currentLine| && r.0.value == r.1.currentLine[r.1.index - 1]
    ensures r.0.None? ==> r.1.index == 1 && r.1.currentLine == [] && r.1.source == []
  {
    var (c, after) := CurrentStep(st);
    (c, after.(index := after.index + 1))
  }

  /** The fields right after `__init__` (buffer.py:26-31). */
  function Initial<T>(source: seq<seq<T>>): State<T> {
    CurrentStep(State(0, [], source, [])).1
  }

  /**
   * buffer.py:45-57: calling `current()` twice with no `pop()` between them
   * returns the same element and changes nothing the second time.
   */
  lemma CurrentIdempotent<T>(st: State<T>)
    ensures CurrentStep(CurrentStep(st).1) == CurrentStep(st)
  {
  }

  /** buffer.py:33-39: a `pop()` that returns an element moves exactly one place along the line. */
  lemma PopAdvances<T>(st: State<T>)
    requires PopStep(st).0.Some?
    ensures var after := CurrentStep(st).1;
      PopStep(st).1.index == after.index + 1 && PopStep(st).1.currentLine == after.currentLine
  {
  }

  /** The lines pulled so far followed by the lines not yet pulled never change. */
  lemma {:induction false} PopKeepsLines<T>(st: State<T>)
    ensures PopStep(st).1.lines + PopStep(st).1.source == st.lines + st.source
  {
  }

  /** The lines of `ls` one after another. */
  function Flatten<T>(ls: seq<seq<T>>): seq<T> {
    if ls == [] then [] else ls[0] + Flatten(ls[1..])
  }

  /**
   * The elements a buffer in state `st` has still to hand out: the rest of
   * the current line, then every line of the source in order.
   */
  function Remaining<T>(st: State<T>): seq<T> {
    (if st.index <= |st.currentLine| then st.currentLine[st.index..] else []) + Flatten(st.source)
  }

  /**
   * buffer.py:45-57: `current()` returns the first element still to come,
   * skipping empty lines, and `None` exactly when nothing is left; it hands
   * nothing out.
   */
  lemma {:induction false} CurrentStream<T>(st: State<T>)
    ensures CurrentStep(st).0.None? <==> Remaining(st) == []
    ensures CurrentStep(st).0.Some? ==> CurrentStep(st).0.value == Remaining(st)[0]
    ensures Remaining(CurrentStep(st).1) == Remaining(st)
    decreases |st.source|
  {
    if LineHasMore(st) {
    } else if st.source == [] {
    } else {
      var line := st.source[0];
      var next := State(0, st.lines + [line], st.source[1..], line);
      CurrentStream(next);
      assert Remaining(next) == Remaining(st) by {
        assert next.currentLine[0..] == line;
        assert Flatten(st.source) == line + Flatten(st.source[1..]);
      }
    }
  }

  /** buffer.py:33-39: `pop()` hands out the first element still to come, or `None` once nothing is left. */
  lemma PopStream<T>(st: State<T>)
    ensures PopStep(st).0 == if Remaining(st) == [] then None else Some(Remaining(st)[0])
    ensures Remaining(PopStep(st).1) == if Remaining(st) == [] then [] else Remaining(st)[1..]
  {
    CurrentStream(st);
    var after := CurrentStep(st).1;
    if CurrentStep(st).0.Some? {
      assert after.currentLine[after.index + 1..] == after.currentLine[after.index..][1..];
    }
  }

  /** What `n` pops in a row return. */
  function Pops<T>(st: State<T>, n: nat): (r: seq<Option<T>>)
    ensures |r| == n
    decreases n
  {
    if n == 0 then [] else [PopStep(st).0] + Pops(PopStep(st).1, n - 1)
  }

  /**
   * buffer.py:33-39: successive pops return the rest of the current line and
   * then the lines of the source, element by element, and `None` after that.
   */
  lemma {:induction false} PopsStream<T>(st: State<T>, n: nat)
    ensures forall i :: 0 <= i < n ==>
      Pops(st, n)[i] == if i < |Remaining(st)| then Some(Remaining(st)[i]) else None
    decreases n
  {
    if n > 0 {
      PopStream(st);
      PopsStream(PopStep(st).1, n - 1);
    }
  }

  /** A buffer over `source`, as a Python object with four fields. */
  class Buffer<T> {
    var index: nat
    var lines: seq<seq<T>>
    var source: seq<seq<T>>
    var currentLine: seq<T>

    function Snapshot(): State<T>
      reads this
    {
      State(index, lines, source, currentLine)
    }

    /** buffer.py:26-31 */
    constructor (source: seq<seq<T>>)
      ensures Snapshot() == Initial(source)
    {
      index := 0;
      lines := [];
      this.source := source;
      currentLine := [];
      new;
      var _ := Current();
    }

    /** buffer.py:33-39 */
    method Pop() returns (r: Option<T>)
      modifies this
      ensures (r, Snapshot()) == PopStep(old(Snapshot()))
      ensures var rest := Remaining(old(Snapshot()));
        && r == (if rest == [] then None else Some(rest[0]))
        && Remaining(Snapshot()) == (if rest == [] then [] else rest[1..])
    {
      PopStream(Snapshot());
      r := Current();
      index := index + 1;
    }

    /** buffer.py:41-43 */
    function MoreOnLine(): (b: bool)
      reads this
      ensures b == LineHasMore(Snapshot())
    {
      index < |currentLine|
    }

    /** buffer.py:45-57 */
    method Current() returns (r: Option<T>)
      modifies this
      ensures (r, Snapshot()) == CurrentStep(old(Snapshot()))
      ensures var rest := Remaining(old(Snapshot()));
        && r == (if rest == [] then None else Some(rest[0]))
        && Remaining(Snapshot()) == rest
    {
      CurrentStream(Snapshot());
      while !MoreOnLine()
        invariant CurrentStep(Snapshot()) == CurrentStep(old(Snapshot()))
        decreases |source|
      {
        index := 0;
        if source == [] {
          currentLine := [];
          return None;
        }
        currentLine := source[0];
        lines := lines + [currentLine];
        source := source[1..];
      }
      return Some(currentLine[index]);
    }
  }

  /** The token values of the example: strings and numbers. */
  datatype Token = Word(text: string) | Number(n: int)

  function ExampleSource(): seq<seq<Token>> {
    [[Word("("), Word("+")], [Number(15)], [Number(12), Word(")")]]
  }

  /** buffer.py:14-20: two pops give "(" and "+", then `current()` gives 15. */
  lemma ExampleSteps()
    ensures var s0 := Initial(ExampleSource());
      && PopStep(s0).0 == Some(Word("("))
      && PopStep(PopStep(s0).1).0 == Some(Word("+"))
      && CurrentStep(PopStep(PopStep(s0).1).1).0 == Some(Number(15))
  {
    var s0 := Initial(ExampleSource());
    assert s0 == State(0, [ExampleSource()[0]], ExampleSource()[1..], ExampleSource()[0]);
    var s2 := PopStep(PopStep(s0).1).1;
    assert s2.index == 2 && s2.source == ExampleSource()[1..];
  }

  /** buffer.py:14-20, run on a `Buffer` object. */
  method Example() returns (first: Option<Token>, second: Option<Token>, third: Option<Token>)
    ensures first == Some(Word("("))
    ensures second == Some(Word("+"))
    ensures third == Some(Number(15))
  {
    ExampleSteps();
    var buf := new Buffer(ExampleSource());
    first := buf.Pop();
    second := buf.Pop();
    third := buf.Current();
  }

  // ---------------------------------------------------------------------
  // The code as written
  // ---------------------------------------------------------------------

  /**
   * buffer.py:41-57 as written: `more_on_line` compares `index` with the
   * length of `current_lines`, which stays the empty tuple, so the loop never
   * stops before the source is exhausted.
   */
  function CurrentAsWritten<T>(st: State<T>): (r: (Option<T>, State<T>))
    ensures r.0 == None && r.1.source == []
    decreases |st.source|
  {
    if st.source == [] then (None, st.(index := 0, currentLine := []))
    else
      var line := st.source[0];
      CurrentAsWritten(State(0, st.lines + [line], st.source[1..], line))
  }

  /** As written, `current()` drains the whole source and returns `None`. */
  lemma {:induction false} AsWrittenDrains<T>(st: State<T>)
    ensures CurrentAsWritten(st).0 == None
    ensures CurrentAsWritten(st).1.source == []
    ensures CurrentAsWritten(st).1.lines == st.lines + st.source
    decreases |st.source|
  {
    if st.source == [] {
      assert st.lines + st.source == st.lines;
    } else {
      var line := st.source[0];
      AsWrittenDrains(State(0, st.lines + [line], st.source[1..], line));
      assert (st.lines + [line]) + st.source[1..] == st.lines + st.source;
    }
  }

  /** On the documented example the code as written pops `None` where "(" is documented. */
  lemma ExampleAsWritten()
    ensures CurrentAsWritten(CurrentAsWritten(State(0, [], ExampleSource(), [])).1).0 == None
    ensures CurrentStep(Initial(ExampleSource())).0 == Some(Word("("))
  {
    AsWrittenDrains(CurrentAsWritten(State(0, [], ExampleSource(), [])).1);
    ExampleSteps();
  }
}
