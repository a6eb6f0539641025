/**
 * `schemestr` of schemy/repl.py: a list prints as its elements' printed
 * forms joined by single spaces inside parentheses, anything else as
 * Python's `str` of it.
 *
 * Python's `str(float)` is not modelled: the printer takes it as the
 * parameter `floatStr`, applied to the literal text a `Real` keeps.
 *
 * The printer is paired with the reader: `ParseShow` proves that parsing
 * the printed form of an expression gives the expression back.
 */
module Printer {
  import opened Errors
  import opened Numerals
  import opened Tokenizer
  import opened Reader

  /** repl.py:9-13 */
  function Show(e: Exp, floatStr: string -> string): (s: string)
    ensures e.List? ==> |s| >= 2 && s[0] == '(' && s[|s| - 1] == ')'
    decreases e, 1
  {
    match e
    case Int(i) => IntText(i)
    case Real(text) => floatStr(text)
    case Sym(name) => name
    case List(items) => "(" + ShowItems(items, floatStr) + ")"
  }

  /** `' '.join(map(schemestr, items))` */
  function ShowItems(items: seq<Exp>, floatStr: string -> string): string
    decreases items, 0
  {
    if items == [] then ""
    else if |items| == 1 then Show(items[0], floatStr)
    else Show(items[0], floatStr) + " " + ShowItems(items[1..], floatStr)
  }

  // ---------------------------------------------------------------------
  // Balanced parentheses
  // ---------------------------------------------------------------------

  function Count(s: string, c: char): nat {
    if s == [] then 0 else (if s[0] == c then 1 else 0) + Count(s[1..], c)
  }

  /** As many ")" as "(", and no prefix closes more than it opened. */
  predicate Balanced(s: string) {
    && Count(s, '(') == Count(s, ')')
    && forall k :: 0 <= k <= |s| ==> Count(s[..k], ')') <= Count(s[..k], '(')
  }

  predicate ParenFree(s: string) {
    '(' !in s && ')' !in s
  }

  /** Every atom prints without parentheses. */
  predicate AtomsParenFree(e: Exp, floatStr: string -> string) {
    match e
    case Int(_) => true
    case Real(text) => ParenFree(floatStr(text))
    case Sym(name) => ParenFree(name)
    case List(items) => forall k :: 0 <= k < |items| ==> AtomsParenFree(items[k], floatStr)
  }

  lemma {:induction false} CountAppend(a: string, b: string, c: char)
    ensures Count(a + b, c) == Count(a, c) + Count(b, c)
  {
    if a == [] {
      assert a + b == b;
    } else {
      assert (a + b)[0] == a[0] && (a + b)[1..] == a[1..] + b;
      CountAppend(a[1..], b, c);
    }
  }

  lemma {:induction false} CountAbsent(s: string, c: char)
    requires c !in s
    ensures Count(s, c) == 0
  {
    if s != [] {
      assert c !in s[1..];
      CountAbsent(s[1..], c);
    }
  }

  lemma ParenFreeBalanced(s: string)
    requires ParenFree(s)
    ensures Balanced(s)
  {
    CountAbsent(s, '(');
    CountAbsent(s, ')');
    forall k | 0 <= k <= |s|
      ensures Count(s[..k], ')') <= Count(s[..k], '(')
    {
      assert '(' !in s[..k] && ')' !in s[..k];
      CountAbsent(s[..k], '(');
      CountAbsent(s[..k], ')');
    }
  }

  lemma BalancedAppend(a: string, b: string)
    requires Balanced(a) && Balanced(b)
    ensures Balanced(a + b)
  {
    CountAppend(a, b, '(');
    CountAppend(a, b, ')');
    forall k | 0 <= k <= |a + b|
      ensures Count((a + b)[..k], ')') <= Count((a + b)[..k], '(')
    {
      if k <= |a| {
        assert (a + b)[..k] == a[..k];
      } else {
        assert (a + b)[..k] == a + b[..k - |a|];
        CountAppend(a, b[..k - |a|], '(');
        CountAppend(a, b[..k - |a|], ')');
      }
    }
  }

  lemma BalancedWrap(s: string)
    requires Balanced(s)
    ensures Balanced("(" + s + ")")
  {
    var w := "(" + s + ")";
    CountAppend("(" + s, ")", '(');
    CountAppend("(" + s, ")", ')');
    CountAppend("(", s, '(');
    CountAppend("(", s, ')');
    forall k | 0 <= k <= |w|
      ensures Count(w[..k], ')') <= Count(w[..k], '(')
    {
      if k == |w| {
        assert w[..k] == w;
      } else if k > 0 {
        assert w[..k] == "(" + s[..k - 1];
        CountAppend("(", s[..k - 1], '(');
        CountAppend("(", s[..k - 1], ')');
      }
    }
  }

  /** repl.py:10-11: printed output has balanced parentheses, nested lists included. */
  lemma {:induction false} ShowBalanced(e: Exp, floatStr: string -> string)
    requires AtomsParenFree(e, floatStr)
    ensures Balanced(Show(e, floatStr))
    decreases e, 1
  {
    match e
    case Int(i) =>
      assert ParenFree(IntText(i)) by {
        var t := IntText(i);
        assert forall j :: 0 <= j < |t| ==> t[j] != '(' && t[j] != ')';
      }
      ParenFreeBalanced(IntText(i));
    case Real(text) =>
      ParenFreeBalanced(floatStr(text));
    case Sym(name) =>
      ParenFreeBalanced(name);
    case List(items) =>
      ShowItemsBalanced(items, floatStr);
      BalancedWrap(ShowItems(items, floatStr));
  }

  lemma {:induction false} ShowItemsBalanced(items: seq<Exp>, floatStr: string -> string)
    requires forall k :: 0 <= k < |items| ==> AtomsParenFree(items[k], floatStr)
    ensures Balanced(ShowItems(items, floatStr))
    decreases items, 0
  {
    if items == [] {
      ParenFreeBalanced("");
    } else if |items| == 1 {
      ShowBalanced(items[0], floatStr);
    } else {
      ShowBalanced(items[0], floatStr);
      ParenFreeBalanced(" ");
      BalancedAppend(Show(items[0], floatStr), " ");
      ShowItemsBalanced(items[1..], floatStr);
      BalancedAppend(Show(items[0], floatStr) + " ", ShowItems(items[1..], floatStr));
    }
  }

  // ---------------------------------------------------------------------
  // Printing then parsing
  // ---------------------------------------------------------------------

  /**
   * Every atom is an integer or a symbol that is a word of the lexer.  A
   * float prints through Python's `str(float)`, which is not modelled, so
   * it is excluded.
   */
  predicate WordAtoms(e: Exp) {
    match e
    case Int(_) => true
    case Real(_) => false
    case Sym(name) => name != [] && IsWordPrefix(name)
    case List(items) => forall k :: 0 <= k < |items| ==> WordAtoms(items[k])
  }

  /** An expression that prints as text the reader gives back. */
  predicate Printable(e: Exp) {
    WordAtoms(e) && Readable(e)
  }

  /** Text that ends the word being lexed: nothing, a parenthesis or a space. */
  predicate StartsWithDelimiter(t: string) {
    t == [] || IsParen(t[0]) || t[0] == ' '
  }

  /** A delimiter emits the word being read as a token of its own. */
  lemma LexFlush(t: string, w: string)
    requires w != [] && StartsWithDelimiter(t)
    ensures Lex(t, w) == [w] + Lex(t, [])
  {
  }

  /**
   * Lexing the printed form of `e`, followed by text that starts with a
   * delimiter, gives the tokens of `e` and then the tokens of that text.
   */
  lemma {:induction false} LexShow(e: Exp, floatStr: string -> string, t: string)
    requires WordAtoms(e) && StartsWithDelimiter(t)
    ensures Lex(Show(e, floatStr) + t, []) == Tokens(e) + Lex(t, [])
    decreases e, 1
  {
    match e
    case List(items) =>
      LexShowList(items, floatStr, t);
    case Int(i) =>
      var w := IntText(i);
      assert IsWordPrefix(w) by {
        assert forall j :: 0 <= j < |w| ==> w[j] != '(' && w[j] != ')';
      }
      LexWord(w, t);
    case Sym(name) =>
      LexWord(name, t);
  }

  lemma LexWord(w: string, t: string)
    requires w != [] && IsWordPrefix(w) && StartsWithDelimiter(t)
    ensures Lex(w + t, []) == [w] + Lex(t, [])
  {
    LexWordThen(w, t, []);
    LexFlush(t, w);
  }

  lemma {:induction false} LexShowList(items: seq<Exp>, floatStr: string -> string, t: string)
    requires forall k :: 0 <= k < |items| ==> WordAtoms(items[k])
    requires StartsWithDelimiter(t)
    ensures Lex(Show(List(items), floatStr) + t, []) == Tokens(List(items)) + Lex(t, [])
    decreases items, 2
  {
    var s := ShowItems(items, floatStr);
    var close := [')'] + t;
    WrapRegroup(s, t);
    assert StartsWithDelimiter(close) by { assert close[0] == ')'; }
    LexDelimiterThen('(', s + close, []);
    LexShowItems(items, floatStr, close);
    LexDelimiterThen(')', t, []);
    TokensRegroup(TokensOf(items), Lex(t, []));
  }

  /** `"(" + s + ")" + t`, regrouped as the lexer reads it. */
  lemma WrapRegroup(s: string, t: string)
    ensures "(" + s + ")" + t == ['('] + (s + ([')'] + t))
  {
  }

  lemma TokensRegroup(inner: seq<string>, after: seq<string>)
    ensures [['(']] + (inner + ([[')']] + after)) == ["("] + inner + [")"] + after
  {
  }

  /** `h + " " + r + t`, regrouped as the lexer reads it. */
  lemma SpaceRegroup(h: string, r: string, t: string)
    ensures h + " " + r + t == h + ([' '] + (r + t))
  {
  }

  lemma TokensOfOne(items: seq<Exp>)
    requires |items| == 1
    ensures TokensOf(items) == Tokens(items[0])
  {
    var none: seq<string> := [];
    assert TokensOf(items) == Tokens(items[0]) + TokensOf(items[1..]);
    assert TokensOf(items[1..]) == none;
    assert Tokens(items[0]) + none == Tokens(items[0]);
  }

  lemma AppendRegroup(a: seq<string>, b: seq<string>, c: seq<string>)
    ensures a + (b + c) == a + b + c
  {
  }

  lemma {:induction false} LexShowItems(items: seq<Exp>, floatStr: string -> string, t: string)
    requires forall k :: 0 <= k < |items| ==> WordAtoms(items[k])
    requires StartsWithDelimiter(t)
    ensures Lex(ShowItems(items, floatStr) + t, []) == TokensOf(items) + Lex(t, [])
    decreases items, 1
  {
    if items == [] {
      assert "" + t == t;
    } else if |items| == 1 {
      LexShow(items[0], floatStr, t);
      TokensOfOne(items);
    } else {
      LexShowCons(items, floatStr, t);
      LexShowItems(items[1..], floatStr, t);
      AppendRegroup(Tokens(items[0]), TokensOf(items[1..]), Lex(t, []));
    }
  }

  /** One step of `LexShowItems`: the first element, then a space, then the others. */
  lemma LexShowCons(items: seq<Exp>, floatStr: string -> string, t: string)
    requires |items| > 1 && WordAtoms(items[0])
    requires StartsWithDelimiter(t)
    ensures Lex(ShowItems(items, floatStr) + t, []) == Tokens(items[0]) + Lex(ShowItems(items[1..], floatStr) + t, [])
    decreases items, 0
  {
    var head, rest := Show(items[0], floatStr), ShowItems(items[1..], floatStr);
    var gap := [' '] + (rest + t);
    assert ShowItems(items, floatStr) == head + " " + rest;
    SpaceRegroup(head, rest, t);
    assert StartsWithDelimiter(gap) by { assert gap[0] == ' '; }
    LexShow(items[0], floatStr, gap);
    LexDelimiterThen(' ', rest + t, []);
  }

  /**
   * repl.py:9-13 with tokenizer.py:7-38: parsing the printed form of a list
   * of integers and word symbols gives the list back.
   */
  lemma ParseShow(e: Exp, floatStr: string -> string)
    requires Printable(e)
    ensures Parse(Show(e, floatStr)) == Ok(e)
  {
    var s := Show(e, floatStr);
    LexShow(e, floatStr, []);
    assert s + [] == s;
    TokenizeIsLex(s);
    ReadTokens(e, []);
    assert Tokens(e) + [] == Tokens(e);
  }

  /** The empty list prints as "()". */
  lemma ShowNil(floatStr: string -> string)
    ensures Show(List([]), floatStr) == "()"
  {
  }


  lemma ShowThree(a: Exp, b: Exp, c: Exp, floatStr: string -> string)
    ensures Show(List([a, b, c]), floatStr)
         == "(" + Show(a, floatStr) + " " + Show(b, floatStr) + " " + Show(c, floatStr) + ")"
  {
    var items := [a, b, c];
    var sa, sb, sc := Show(a, floatStr), Show(b, floatStr), Show(c, floatStr);
    assert items[1..] == [b, c] && items[1..][1..] == [c];
    assert ShowItems([c], floatStr) == sc;
    assert ShowItems([b, c], floatStr) == sb + " " + sc;
    assert ShowItems(items, floatStr) == sa + " " + (sb + " " + sc);
    ThreeRegroup(sa, sb, sc);
  }

  lemma ThreeRegroup(a: string, b: string, c: string)
    ensures "(" + (a + " " + (b + " " + c)) + ")" == "(" + a + " " + b + " " + c + ")"
  {
  }

  function Square(): Exp {
    List([Sym("*"), Sym("r"), Sym("r")])
  }

  function Product(): Exp {
    List([Sym("*"), Sym("pi"), Square()])
  }

  function Definition(): Exp {
    List([Sym("define"), Sym("r"), Int(10)])
  }

  /** tests/test_tokenizer.py:30 and tests/test_schemy.py:11 */
  function BeginTree(): Exp {
    List([Sym("begin"), Definition(), Product()])
  }

  lemma ShowSquare(floatStr: string -> string)
    ensures Show(Square(), floatStr) == "(* r r)"
  {
    ShowThree(Sym("*"), Sym("r"), Sym("r"), floatStr);
    assert "(" + "*" + " " + "r" + " " + "r" + ")" == "(* r r)";
  }

  lemma ShowProduct(floatStr: string -> string)
    ensures Show(Product(), floatStr) == "(* pi (* r r))"
  {
    ShowThree(Sym("*"), Sym("pi"), Square(), floatStr);
    ShowSquare(floatStr);
    assert "(" + "*" + " " + "pi" + " " + "(* r r)" + ")" == "(* pi (* r r))";
  }

  lemma ShowDefinition(floatStr: string -> string)
    ensures Show(Definition(), floatStr) == "(define r 10)"
  {
    ShowThree(Sym("define"), Sym("r"), Int(10), floatStr);
    assert IntText(10) == "10";
    assert "(" + "define" + " " + "r" + " " + "10" + ")" == "(define r 10)";
  }

  lemma ShowBegin(floatStr: string -> string)
    ensures Show(BeginTree(), floatStr) == "(begin (define r 10) (* pi (* r r)))"
  {
    ShowThree(Sym("begin"), Definition(), Product(), floatStr);
    ShowDefinition(floatStr);
    ShowProduct(floatStr);
    BeginText();
  }

  /** The text of the `begin` program, assembled piece by piece. */
  lemma BeginText()
    ensures "(" + "begin" + " " + "(define r 10)" + " " + "(* pi (* r r))" + ")"
         == "(begin (define r 10) (* pi (* r r)))"
  {
    BeginText1();
    BeginText2();
    BeginText3();
  }

  lemma BeginText1()
    ensures "(" + "begin" + " " + "(define r 10)" == "(begin (define r 10)"
  {
    assert "(" + "begin" + " " == "(begin ";
  }

  lemma BeginText2()
    ensures "(begin (define r 10)" + " " + "(* pi (* r r))" == "(begin (define r 10) (* pi (* r r))"
  {
    assert "(begin (define r 10)" + " " == "(begin (define r 10) ";
  }

  lemma BeginText3()
    ensures "(begin (define r 10) (* pi (* r r))" + ")" == "(begin (define r 10) (* pi (* r r)))"
  {
  }

  /** Integers and symbols that are words, such as the symbols of the example programs. */
  predicate WordTree(e: Exp) {
    match e
    case Int(_) => true
    case Real(_) => false
    case Sym(name) => IsWord(name) && ParenFree(name)
    case List(items) => forall k :: 0 <= k < |items| ==> WordTree(items[k])
  }

  lemma {:induction false} WordTreePrintable(e: Exp)
    requires WordTree(e)
    ensures Printable(e)
    decreases e
  {
    match e
    case List(items) =>
      forall k | 0 <= k < |items|
        ensures Printable(items[k])
      {
        WordTreePrintable(items[k]);
      }
    case Sym(name) =>
      WordIsNotInt(name);
      WordIsNotFloat(name);
    case Int(_) =>
  }

  lemma BeginPrintable()
    ensures Printable(BeginTree())
  {
    WordsOfBegin();
    assert WordTree(BeginTree());
    WordTreePrintable(BeginTree());
  }

  lemma WordsOfBegin()
    ensures WordTree(Definition()) && WordTree(Product())
  {
    assert WordTree(Sym("define"));
    assert WordTree(Sym("pi"));
    WordsOfSquare();
  }

  lemma WordsOfSquare()
    ensures WordTree(Sym("*")) && WordTree(Sym("r")) && WordTree(Square())
  {
  }

  /**
   * tokenizer.py:37-38, tests/test_tokenizer.py:29-32: the `begin` program
   * parses to the nested list of its symbols and numbers.
   */
  /** The program of tests/test_schemy.py:10-13. */
  function BeginProgram(): string {
    "(begin (define r 10) (* pi (* r r)))"
  }

  lemma ParseBegin()
    ensures Parse(BeginProgram()) == Ok(BeginTree())
  {
    var floatStr := (t: string) => t;
    BeginPrintable();
    ShowBegin(floatStr);
    ParseShow(BeginTree(), floatStr);
  }
}
