/**
 * The lexer of schemy/tokenizer.py (and of its copy in schemy/schemy.py):
 * `tokenize` pads every parenthesis with spaces and splits the text on
 * whitespace.
 *
 * `Tokenize` is written exactly that way, with two `str.replace` calls and
 * `str.split()`.  `Lex` is an independent one-pass definition of the same
 * token sequence; `TokenizeIsLex` proves them equal, and the properties of
 * the tokens are proved about `Lex`.
 */
module Tokenizer {
  import opened Numerals

  /** Python's `s.replace(c, by)` for a one-character pattern. */
  function ReplaceChar(s: string, c: char, with: string): (r: string)
    ensures c !in with ==> c !in r
  {
    if s == [] then [] else (if s[0] == c then with else [s[0]]) + ReplaceChar(s[1..], c, with)
  }

  function Emit(word: string): seq<string> {
    if word == [] then [] else [word]
  }

  /**
   * Python's `str.split()` with no separator, continuing a word `word`
   * already begun: the maximal runs of non-whitespace characters.
   */
  function SplitFrom(s: string, word: string): seq<string>
    decreases |s|
  {
    if s == [] then Emit(word)
    else if IsSpace(s[0]) then Emit(word) + SplitFrom(s[1..], [])
    else SplitFrom(s[1..], word + [s[0]])
  }

  /** Python's `str.split()` with no separator. */
  function Split(s: string): seq<string> {
    SplitFrom(s, [])
  }

  predicate IsParen(c: char) {
    c == '(' || c == ')'
  }

  /** A token the lexer can produce: non-empty, no whitespace, and a parenthesis only on its own. */
  predicate WellFormedToken(t: string) {
    && t != []
    && NoSpace(t)
    && ('(' in t || ')' in t ==> |t| == 1)
  }

  /** The characters of `s` that are not whitespace, in order. */
  function NonSpace(s: string): string {
    if s == [] then [] else (if IsSpace(s[0]) then [] else [s[0]]) + NonSpace(s[1..])
  }

  function Concat(ts: seq<string>): string {
    if ts == [] then [] else ts[0] + Concat(ts[1..])
  }

  /** tokenizer.py:7-8 */
  function Tokenize(chars: string): (tokens: seq<string>)
    ensures forall t <- tokens :: WellFormedToken(t)
    ensures Concat(tokens) == NonSpace(chars)
  {
    TokenizeIsLex(chars);
    LexTokensWellFormed(chars, []);
    LexConcat(chars, []);
    Split(ReplaceChar(ReplaceChar(chars, '(', " ( "), ')', " ) "))
  }

  /**
   * Reference lexer: a parenthesis is a token of its own, whitespace ends a
   * word, and any other character extends the current word.
   */
  function Lex(s: string, word: string): seq<string>
    decreases |s|
  {
    if s == [] then Emit(word)
    else if IsParen(s[0]) then Emit(word) + [[s[0]]] + Lex(s[1..], [])
    else if IsSpace(s[0]) then Emit(word) + Lex(s[1..], [])
    else Lex(s[1..], word + [s[0]])
  }

  function PadChar(c: char): string {
    if c == '(' then " ( " else if c == ')' then " ) " else [c]
  }

  /** Both replacements of `tokenize` at once, character by character. */
  function Pad(s: string): string {
    if s == [] then [] else PadChar(s[0]) + Pad(s[1..])
  }

  lemma {:induction false} ReplaceCharAppend(a: string, b: string, c: char, with: string)
    ensures ReplaceChar(a + b, c, with) == ReplaceChar(a, c, with) + ReplaceChar(b, c, with)
  {
    if a != [] {
      var head := if a[0] == c then with else [a[0]];
      assert (a + b)[0] == a[0] && (a + b)[1..] == a[1..] + b;
      ReplaceCharAppend(a[1..], b, c, with);
      calc {
        ReplaceChar(a + b, c, with);
        head + ReplaceChar(a[1..] + b, c, with);
        head + (ReplaceChar(a[1..], c, with) + ReplaceChar(b, c, with));
        (head + ReplaceChar(a[1..], c, with)) + ReplaceChar(b, c, with);
      }
    } else {
      assert a + b == b;
    }
  }

  lemma {:induction false} DoubleReplaceIsPad(s: string)
    ensures ReplaceChar(ReplaceChar(s, '(', " ( "), ')', " ) ") == Pad(s)
  {
    if s != [] {
      var head := if s[0] == '(' then " ( " else [s[0]];
      ReplaceCharAppend(head, ReplaceChar(s[1..], '(', " ( "), ')', " ) ");
      assert ReplaceChar(head, ')', " ) ") == PadChar(s[0]) by {
        if s[0] == '(' {
          assert ReplaceChar(head, ')', " ) ") == [' '] + ReplaceChar("( ", ')', " ) ");
          assert ReplaceChar("( ", ')', " ) ") == ['('] + ReplaceChar(" ", ')', " ) ");
        }
      }
      DoubleReplaceIsPad(s[1..]);
    }
  }

  lemma {:induction false} SplitPadIsLex(s: string, word: string)
    ensures SplitFrom(Pad(s), word) == Lex(s, word)
    decreases |s|
  {
    if s != [] {
      var c, rest := s[0], Pad(s[1..]);
      assert Pad(s) == PadChar(c) + rest;
      SplitPadIsLex(s[1..], []);
      if IsParen(c) {
        var p := PadChar(c) + rest;
        assert p[0] == ' ' && p[1..] == [c] + ([' '] + rest);
        assert ([c] + ([' '] + rest))[0] == c && ([c] + ([' '] + rest))[1..] == [' '] + rest;
        assert ([' '] + rest)[1..] == rest;
        var none: string := [];
        assert none + [c] == [c];
        calc {
          SplitFrom(p, word);
          Emit(word) + SplitFrom([c] + ([' '] + rest), []);
          Emit(word) + SplitFrom([' '] + rest, [c]);
          Emit(word) + ([[c]] + SplitFrom(rest, []));
        }
      } else if IsSpace(c) {
        assert (PadChar(c) + rest)[1..] == rest;
      } else {
        assert (PadChar(c) + rest)[1..] == rest;
        SplitPadIsLex(s[1..], word + [c]);
      }
    }
  }

  lemma TokenizeIsLex(chars: string)
    ensures Split(ReplaceChar(ReplaceChar(chars, '(', " ( "), ')', " ) ")) == Lex(chars, [])
  {
    DoubleReplaceIsPad(chars);
    SplitPadIsLex(chars, []);
  }

  predicate IsWordPrefix(word: string) {
    NoSpace(word) && '(' !in word && ')' !in word
  }

  lemma {:induction false} LexTokensWellFormed(s: string, word: string)
    requires IsWordPrefix(word)
    ensures forall t <- Lex(s, word) :: WellFormedToken(t)
    decreases |s|
  {
    if s != [] {
      if IsParen(s[0]) || IsSpace(s[0]) {
        LexTokensWellFormed(s[1..], []);
      } else {
        LexTokensWellFormed(s[1..], word + [s[0]]);
      }
    }
  }

  lemma {:induction false} ConcatAppend(a: seq<string>, b: seq<string>)
    ensures Concat(a + b) == Concat(a) + Concat(b)
  {
    if a != [] {
      assert (a + b)[0] == a[0] && (a + b)[1..] == a[1..] + b;
      ConcatAppend(a[1..], b);
      calc {
        Concat(a + b);
        a[0] + Concat(a[1..] + b);
        a[0] + (Concat(a[1..]) + Concat(b));
        (a[0] + Concat(a[1..])) + Concat(b);
      }
    } else {
      assert a + b == b;
    }
  }

  lemma {:induction false} LexConcat(s: string, word: string)
    ensures Concat(Lex(s, word)) == word + NonSpace(s)
    decreases |s|
  {
    if s != [] {
      var c := s[0];
      if IsParen(c) {
        LexConcat(s[1..], []);
        ConcatAppend(Emit(word), [[c]]);
        ConcatAppend(Emit(word) + [[c]], Lex(s[1..], []));
      } else if IsSpace(c) {
        LexConcat(s[1..], []);
        ConcatAppend(Emit(word), Lex(s[1..], []));
      } else {
        LexConcat(s[1..], word + [c]);
      }
    }
  }

  /** A word of ordinary characters extends the word being read. */
  lemma {:induction false} LexWordThen(w: string, t: string, word: string)
    requires IsWordPrefix(w)
    ensures Lex(w + t, word) == Lex(t, word + w)
    ensures word == [] ==> Lex(w + t, word) == Lex(t, w)
    decreases |w|
  {
    if w == [] {
      assert w + t == t && word + w == word;
    } else {
      assert (w + t)[0] == w[0] && (w + t)[1..] == w[1..] + t;
      assert word + [w[0]] + w[1..] == word + w;
      LexWordThen(w[1..], t, word + [w[0]]);
    }
    assert word == [] ==> word + w == w;
  }

  /** A parenthesis or a space ends the word being read. */
  lemma LexDelimiterThen(c: char, t: string, word: string)
    requires IsParen(c) || c == ' '
    ensures Lex([c] + t, word) == Emit(word) + (if c == ' ' then [] else [[c]]) + Lex(t, [])
  {
    assert ([c] + t)[0] == c && ([c] + t)[1..] == t;
  }

  /** tests/test_tokenizer.py:11-15 */
  lemma TokenizeAtomAndNil()
    ensures Tokenize("1") == ["1"]
    ensures Tokenize("()") == ["(", ")"]
  {
    TokenizeIsLex("1");
    LexWordThen("1", [], []);
    assert "1" + [] == "1";
    TokenizeIsLex("()");
    assert "()" == ['('] + ([')'] + []);
    LexDelimiterThen(')', [], []);
    LexDelimiterThen('(', ")", []);
  }

  lemma LexSum()
    ensures Lex("(+ 1 2)", []) == ["(", "+", "1", "2", ")"]
  {
    var t5 := ")";
    var t4 := "2" + t5;
    var t3 := [' '] + t4;
    var t2 := "1" + t3;
    var t1 := [' '] + t2;
    var t0 := "+" + t1;
    assert "(+ 1 2)" == ['('] + t0;
    LexDelimiterThen(')', [], "2");
    LexWordThen("2", t5, []);
    LexDelimiterThen(' ', t4, "1");
    LexWordThen("1", t3, []);
    LexDelimiterThen(' ', t2, "+");
    LexWordThen("+", t1, []);
    LexDelimiterThen('(', t0, []);
  }

  /** tests/test_tokenizer.py:17-18 and tests/test_parser.py:8 */
  lemma TokenizeSum()
    ensures Tokenize("(+ 1 2)") == ["(", "+", "1", "2", ")"]
  {
    TokenizeIsLex("(+ 1 2)");
    LexSum();
  }
}
