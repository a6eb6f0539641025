/**
 * The parser of schemy/tokenizer.py: `atom`, `read_from_tokens` and `parse`.
 *
 * `read_from_tokens` pops tokens off the front of a shared Python list and
 * recurses for each element of a parenthesised group.  `ReadFromTokens`
 * keeps that shape: it is a recursive method over a `TokenList` object whose
 * `items` it consumes in place.  It is proved against `ReadExp`, a function
 * that returns what the call returns (or raises) together with what is left
 * in the list afterwards, whether the call returned or raised.
 */
module Reader {
  import opened Errors
  import opened Numerals
  import opened Tokenizer

  /** The parse tree: Python ints, floats (kept as their literal text), symbols and lists. */
  datatype Exp =
    | Int(i: int)
    | Real(text: string)
    | Sym(name: string)
    | List(items: seq<Exp>)

  /** tokenizer.py:27-34: an int when `int(token)` succeeds, else a float, else a symbol. */
  function Atom(token: string): (e: Exp)
    ensures !e.List?
    ensures e.Int? <==> IsIntLiteral(token)
    ensures e.Int? ==> e.i == IntValue(token)
    ensures e.Real? <==> !IsIntLiteral(token) && IsFloatLiteral(token)
    ensures e.Sym? <==> !IsIntLiteral(token) && !IsFloatLiteral(token)
    ensures e.Real? ==> e.text == token
    ensures e.Sym? ==> e.name == token
  {
    if IsIntLiteral(token) then Int(IntValue(token))
    else if IsFloatLiteral(token) then Real(token)
    else Sym(token)
  }

  predicate IsSuffix(rest: seq<string>, tokens: seq<string>) {
    |rest| <= |tokens| && rest == tokens[|tokens| - |rest|..]
  }

  /**
   * tokenizer.py:11-24: what `read_from_tokens(tokens)` returns or raises,
   * paired with the contents of `tokens` afterwards.
   */
  function ReadExp(tokens: seq<string>): (r: (Result<Exp>, seq<string>))
    ensures IsSuffix(r.1, tokens)
    ensures tokens != [] ==> |r.1| < |tokens|
    decreases |tokens|, 0
  {
    if tokens == [] then (Err(SyntaxError("unexpected EOF while reading")), tokens)
    else
      var token, rest := tokens[0], tokens[1..];
      if token == "(" then
        var (items, after) := ReadItems(rest);
        (if items.Ok? then Ok(List(items.value)) else Err(items.error), after)
      else if token == ")" then (Err(SyntaxError("unexpected )")), rest)
      else (Ok(Atom(token)), rest)
  }

  /**
   * tokenizer.py:16-19: the `while tokens[0] != ')'` loop that reads the
   * elements of a group and pops its closing parenthesis.  `tokens[0]` on an
   * empty list raises IndexError.
   */
  function ReadItems(tokens: seq<string>): (r: (Result<seq<Exp>>, seq<string>))
    ensures IsSuffix(r.1, tokens)
    ensures tokens != [] ==> |r.1| < |tokens|
    decreases |tokens|, 1
  {
    if tokens == [] then (Err(IndexError), tokens)
    else if tokens[0] == ")" then (Ok([]), tokens[1..])
    else
      var (e, rest) := ReadExp(tokens);
      if e.Err? then (Err(e.error), rest)
      else Prepend([e.value], ReadItems(rest))
  }

  /** Elements already read, in front of what the rest of the group reads. */
  function Prepend(done: seq<Exp>, r: (Result<seq<Exp>>, seq<string>)): (Result<seq<Exp>>, seq<string>) {
    (if r.0.Ok? then Ok(done + r.0.value) else r.0, r.1)
  }

  lemma PrependNothing(r: (Result<seq<Exp>>, seq<string>))
    ensures Prepend([], r) == r
  {
    if r.0.Ok? {
      assert [] + r.0.value == r.0.value;
    }
  }

  lemma PrependTwice(a: seq<Exp>, b: seq<Exp>, r: (Result<seq<Exp>>, seq<string>))
    ensures Prepend(a, Prepend(b, r)) == Prepend(a + b, r)
  {
    if r.0.Ok? {
      assert a + (b + r.0.value) == (a + b) + r.0.value;
    }
  }

  /** The Python list that `read_from_tokens` pops from. */
  class TokenList {
    var items: seq<string>

    constructor (items: seq<string>)
      ensures this.items == items
    {
      this.items := items;
    }
  }

  /** tokenizer.py:11-24, consuming `tokens` in place as `tokens.pop(0)` does. */
  method ReadFromTokens(tokens: TokenList) returns (r: Result<Exp>)
    modifies tokens
    ensures (r, tokens.items) == ReadExp(old(tokens.items))
    decreases |tokens.items|
  {
    if |tokens.items| == 0 {
      return Err(SyntaxError("unexpected EOF while reading"));
    }
    var token := tokens.items[0];
    tokens.items := tokens.items[1..];
    if token == "(" {
      ghost var start := tokens.items;
      var elements: seq<Exp> := [];
      PrependNothing(ReadItems(start));
      while tokens.items == [] || tokens.items[0] != ")"
        invariant |tokens.items| <= |start|
        invariant ReadItems(start) == Prepend(elements, ReadItems(tokens.items))
        decreases |tokens.items|
      {
        if tokens.items == [] {
          return Err(IndexError);
        }
        ghost var before := tokens.items;
        var e := ReadFromTokens(tokens);
        if e.Err? {
          return Err(e.error);
        }
        assert ReadItems(before) == Prepend([e.value], ReadItems(tokens.items));
        PrependTwice(elements, [e.value], ReadItems(tokens.items));
        elements := elements + [e.value];
      }
      assert elements + [] == elements;
      tokens.items := tokens.items[1..];
      return Ok(List(elements));
    } else if token == ")" {
      return Err(SyntaxError("unexpected )"));
    } else {
      return Ok(Atom(token));
    }
  }

  /** tokenizer.py:37-38 */
  function Parse(program: string): (r: Result<Exp>)
    ensures NonSpace(program) == [] ==> r == Err(SyntaxError("unexpected EOF while reading"))
    ensures NonSpace(program) != [] && NonSpace(program)[0] == ')' ==> r == Err(SyntaxError("unexpected )"))
    ensures NonSpace(program) != [] && !IsParen(NonSpace(program)[0]) ==> r.Ok? && !r.value.List?
  {
    var tokens := Tokenize(program);
    FirstToken(tokens);
    ReadExp(tokens).0
  }

  /** The first token of a lexed program starts with its first non-space character. */
  lemma FirstToken(tokens: seq<string>)
    requires forall t <- tokens :: WellFormedToken(t)
    ensures tokens == [] <==> Concat(tokens) == []
    ensures tokens != [] ==> tokens[0] != [] && tokens[0] <= Concat(tokens)
    ensures tokens != [] && tokens[0] != [] && IsParen(tokens[0][0]) ==> tokens[0] == [tokens[0][0]]
  {
    if tokens != [] {
      assert WellFormedToken(tokens[0]);
      assert tokens[0][0] in tokens[0];
    }
  }

  /** tokenizer.py:37-38, running the in-place reader on a fresh token list. */
  method ParseProgram(program: string) returns (r: Result<Exp>)
    ensures r == Parse(program)
  {
    var tokens := new TokenList(Tokenize(program));
    r := ReadFromTokens(tokens);
  }

  /** The token a non-list expression is written as. */
  function AtomToken(e: Exp): string
    requires !e.List?
  {
    match e
    case Int(i) => IntText(i)
    case Real(text) => text
    case Sym(name) => name
  }

  /** An expression whose atoms each read back as themselves. */
  predicate Readable(e: Exp) {
    match e
    case Int(_) => true
    case Real(text) => !IsIntLiteral(text) && IsFloatLiteral(text)
    case Sym(name) => name != "(" && name != ")" && !IsIntLiteral(name) && !IsFloatLiteral(name)
    case List(items) => forall k :: 0 <= k < |items| ==> Readable(items[k])
  }

  /** The tokens that spell `e`: a group is "(", its elements' tokens, ")". */
  function Tokens(e: Exp): seq<string> {
    match e
    case List(items) => ["("] + TokensOf(items) + [")"]
    case _ => [AtomToken(e)]
  }

  function TokensOf(items: seq<Exp>): seq<string> {
    if items == [] then [] else Tokens(items[0]) + TokensOf(items[1..])
  }

  /** A parenthesis is neither an int nor a float literal. */
  lemma ParenIsNotNumber(c: char)
    requires IsParen(c)
    ensures !IsIntLiteral([c]) && !IsFloatLiteral([c])
  {
    var t: string := [c];
    assert Strip(t) == t;
    ParenNotInt(t);
    ParenNotFloat(t);
  }

  lemma ParenNotInt(t: string)
    requires |t| == 1 && IsParen(t[0]) && Strip(t) == t
    ensures !IsIntLiteral(t)
  {
    assert Unsign(t).1 == t;
    assert !IsDigit(t[0]);
  }

  lemma ParenNotFloat(t: string)
    requires |t| == 1 && IsParen(t[0]) && Strip(t) == t
    ensures !IsFloatLiteral(t)
  {
    assert Unsign(t).1 == t;
    assert Lower(t) == t;
    assert FindAny(t, {'e', 'E'}) == 1;
    assert FindAny(t, {'.'}) == 1;
    assert t[..1] == t;
    assert !IsDigit(t[0]);
  }

  lemma AtomTokenReadsBack(e: Exp)
    requires !e.List? && Readable(e)
    ensures AtomToken(e) != "(" && AtomToken(e) != ")"
    ensures Atom(AtomToken(e)) == e
  {
    match e
    case Int(i) =>
      IntTextRoundTrip(i);
      assert IntText(i)[0] != '(' && IntText(i)[0] != ')';
    case Real(text) =>
      ParenIsNotNumber('(');
      ParenIsNotNumber(')');
    case Sym(_) =>
  }

  /**
   * Reading the tokens of a readable expression gives it back and leaves
   * the tokens after it untouched: `read_from_tokens` inverts `Tokens`.
   */
  lemma {:induction false} ReadTokens(e: Exp, rest: seq<string>)
    requires Readable(e)
    ensures ReadExp(Tokens(e) + rest) == (Ok(e), rest)
    decreases e, 1
  {
    if e.List? {
      var ts := ["("] + (TokensOf(e.items) + ([")"] + rest));
      assert Tokens(e) + rest == ts;
      assert ts[0] == "(" && ts[1..] == TokensOf(e.items) + ([")"] + rest);
      ReadTokensOf(e.items, rest);
    } else {
      AtomTokenReadsBack(e);
      var ts := [AtomToken(e)] + rest;
      assert ts[0] == AtomToken(e) && ts[1..] == rest;
    }
  }

  /** The elements of a group, followed by its ")", read back as the group's list. */
  lemma {:induction false} ReadTokensOf(items: seq<Exp>, rest: seq<string>)
    requires forall k :: 0 <= k < |items| ==> Readable(items[k])
    ensures ReadItems(TokensOf(items) + ([")"] + rest)) == (Ok(items), rest)
    decreases items, 0
  {
    if items == [] {
      assert TokensOf(items) + ([")"] + rest) == [")"] + rest;
    } else {
      var head := items[0];
      var tail := TokensOf(items[1..]) + ([")"] + rest);
      assert TokensOf(items) + ([")"] + rest) == Tokens(head) + tail;
      assert Tokens(head)[0] != ")" by {
        if !head.List? { AtomTokenReadsBack(head); }
      }
      ReadTokens(head, tail);
      ReadTokensOf(items[1..], rest);
      assert [head] + items[1..] == items;
    }
  }

  /**
   * tokenizer.py:17: a group whose ")" is missing fails when `tokens[0]` is
   * taken from the emptied list (an IndexError), not with the EOF error.
   */
  lemma {:induction false} MissingCloseIsIndexError(items: seq<Exp>)
    requires forall k :: 0 <= k < |items| ==> Readable(items[k])
    ensures ReadExp(["("] + TokensOf(items)) == (Err(IndexError), [])
  {
    UnclosedItems(items);
    assert (["("] + TokensOf(items))[1..] == TokensOf(items);
  }

  lemma {:induction false} UnclosedItems(items: seq<Exp>)
    requires forall k :: 0 <= k < |items| ==> Readable(items[k])
    ensures ReadItems(TokensOf(items)) == (Err(IndexError), [])
  {
    if items != [] {
      var head := items[0];
      assert Tokens(head)[0] != ")" by {
        if !head.List? { AtomTokenReadsBack(head); }
      }
      ReadTokens(head, TokensOf(items[1..]));
      UnclosedItems(items[1..]);
    }
  }

  /** tokenizer.py:12-13 and 21-22: the two syntax errors. */
  lemma ReadErrors(rest: seq<string>)
    ensures ReadExp([]) == (Err(SyntaxError("unexpected EOF while reading")), [])
    ensures ReadExp([")"] + rest) == (Err(SyntaxError("unexpected )")), rest)
  {
    assert ([")"] + rest)[0] == ")" && ([")"] + rest)[1..] == rest;
  }

  /** tests/test_tokenizer.py:25 */
  lemma AtomOfInteger()
    ensures Atom("10") == Int(10)
  {
    IntTextRoundTrip(10);
    assert IntText(10) == "10";
  }

  /** tests/test_tokenizer.py:26 */
  lemma AtomOfFloat()
    ensures Atom("10.123") == Real("10.123")
  {
    DecimalNotInt();
    DecimalIsFloat();
  }

  lemma DecimalNotInt()
    ensures !IsIntLiteral("10.123")
  {
    var t := "10.123";
    assert Strip(t) == t && Unsign(t).1 == t;
    assert t[2] == '.';
  }

  lemma DecimalIsFloat()
    ensures IsFloatLiteral("10.123")
  {
    var t := "10.123";
    assert Strip(t) == t && Unsign(t).1 == t;
    assert FindAny(t, {'e', 'E'}) == 6;
    assert FindAny(t, {'.'}) == 2;
    assert t[..6] == t && t[..2] == "10" && t[3..] == "123";
    assert DigitRun("10") && DigitRun("123");
    assert DecimalLiteral(t);
  }

  /** A word that cannot begin a number reads as the symbol with the same text. */
  lemma AtomOfWord(t: string)
    requires IsWord(t)
    ensures Atom(t) == Sym(t)
  {
    WordIsNotInt(t);
    WordIsNotFloat(t);
  }

  /** tests/test_tokenizer.py:27 */
  lemma AtomOfName()
    ensures Atom("define") == Sym("define")
  {
    AtomOfWord("define");
  }
}
