/** `?` placeholders rewritten as `$1`, `$2`, ... (server/src/store.rs), and when a reader of
    numbered placeholders finds in the rewritten text what was meant by the original.

    The reader takes `$` and all the digits behind it for a parameter, except inside a
    word, where `$` is one more character of the word. Which characters begin a word is
    left open: none gives the plain reader, letters and underscores the names of SQL as
    Postgres reads them. Quoted text, comments and dollar quotes are not read specially. */
module Placeholders {
  // ---------- decimal numbers ----------

  predicate Digit(c: char) { '0' <= c <= '9' }

  predicate AllDigits(s: string) { forall i :: 0 <= i < |s| ==> Digit(s[i]) }

  function Decimal(n: nat): (s: string)
    ensures s != [] && AllDigits(s)
    decreases n
  {
    var last := [('0' as int + n % 10) as char];
    if n < 10 then last else Decimal(n / 10) + last
  }

  function Value(s: string): nat
    requires AllDigits(s)
  {
    if s == [] then 0 else 10 * Value(s[..|s| - 1]) + (s[|s| - 1] as int - '0' as int)
  }

  lemma {:induction false} ValueOfDecimal(n: nat)
    ensures Value(Decimal(n)) == n
    decreases n
  {
    var s := Decimal(n);
    if n < 10 {
      assert s[..0] == [];
    } else {
      ValueOfDecimal(n / 10);
      assert s[..|s| - 1] == Decimal(n / 10);
    }
  }

  /** More digits after a number other than zero make a bigger one. */
  lemma {:induction false} LongerIsBigger(s: string, more: string)
    requires AllDigits(s) && AllDigits(more) && Value(s) > 0 && more != []
    ensures AllDigits(s + more) && Value(s + more) > Value(s)
    decreases |more|
  {
    var front := more[..|more| - 1];
    assert (s + more)[..|s + more| - 1] == s + front;
    if front == [] {
      assert s + front == s;
    } else {
      LongerIsBigger(s, front);
    }
  }

  // ---------- the rewrite ----------

  function Mark(c: char): nat { if c == '?' then 1 else 0 }

  /** One character, with `n` placeholders before it. */
  function Piece(c: char, n: nat): string {
    if c == '?' then "$" + Decimal(n + 1) else [c]
  }

  function ToPgFrom(sql: string, n: nat): string {
    if sql == [] then [] else Piece(sql[0], n) + ToPgFrom(sql[1..], n + Mark(sql[0]))
  }

  /** `to_pg`. */
  method ToPg(sql: string) returns (out: string)
    ensures out == ToPgFrom(sql, 0)
  {
    out := [];
    var n := 0;
    for i := 0 to |sql|
      invariant out + ToPgFrom(sql[i..], n) == ToPgFrom(sql, 0)
    {
      var c := sql[i];
      assert sql[i..][1..] == sql[i + 1..];
      ghost var rest := ToPgFrom(sql[i + 1..], n + Mark(c));
      Regrouped(out, Piece(c, n), rest);
      if c == '?' {
        n := n + 1;
        out := out + "$";
        Regrouped(out[..|out| - 1], "$", Decimal(n));
        out := out + Decimal(n);
      } else {
        out := out + [c];
      }
    }
  }

  lemma Regrouped(x: string, y: string, z: string)
    ensures x + (y + z) == (x + y) + z
  {
  }

  // ---------- what a text means ----------

  datatype Token = Char(c: char) | Param(k: nat)

  /** The original: each `?` is the next parameter. */
  function Positional(sql: string, n: nat): seq<Token> {
    if sql == [] then []
    else [if sql[0] == '?' then Param(n + 1) else Char(sql[0])] + Positional(sql[1..], n + Mark(sql[0]))
  }

  /** How many digits a text starts with. */
  function Run(s: string): (d: nat)
    ensures d <= |s| && AllDigits(s[..d]) && (d < |s| ==> !Digit(s[d]))
  {
    if s == [] || !Digit(s[0]) then 0
    else
      assert s[..1 + Run(s[1..])] == [s[0]] + s[1..][..Run(s[1..])];
      1 + Run(s[1..])
  }

  /** Whether the reader stands inside a word behind `c`. */
  predicate InWord(starts: char -> bool, word: bool, c: char) {
    starts(c) || (word && (Digit(c) || c == '$'))
  }

  datatype Reading = Reading(token: Token, rest: string, word: bool)

  /** The first token of the rewritten text, what is left, and whether that is inside a word. */
  function NextToken(starts: char -> bool, s: string, word: bool): (r: Reading)
    requires s != []
    ensures |r.rest| < |s|
  {
    var d := Run(s[1..]);
    if s[0] == '$' && !word && d > 0 then Reading(Param(Value(s[1..][..d])), s[1..][d..], false)
    else Reading(Char(s[0]), s[1..], InWord(starts, word, s[0]))
  }

  function Numbered(starts: char -> bool, s: string, word: bool): seq<Token>
    decreases |s|
  {
    if s == [] then []
    else
      var r := NextToken(starts, s, word);
      [r.token] + Numbered(starts, r.rest, r.word)
  }

  predicate DigitNext(rest: string) { rest != [] && Digit(rest[0]) }

  /** A `?` ends a word and is followed by no digit; a `$` outside a word is followed by none. */
  predicate FirstSeparated(c: char, rest: string, word: bool) {
    && (c == '?' ==> !word && !DigitNext(rest))
    && (c == '$' && !word ==> !DigitNext(rest))
  }

  predicate Separated(starts: char -> bool, sql: string, word: bool) {
    sql == [] ||
    (&& FirstSeparated(sql[0], sql[1..], word)
     && Separated(starts, sql[1..], sql[0] != '?' && InWord(starts, word, sql[0])))
  }

  lemma {:induction false} RunIs(digits: string, rest: string)
    requires AllDigits(digits) && (rest == [] || !Digit(rest[0]))
    ensures Run(digits + rest) == |digits|
  {
    if digits == [] {
      assert digits + rest == rest;
    } else {
      RunIs(digits[1..], rest);
      assert (digits + rest)[1..] == digits[1..] + rest;
    }
  }

  lemma NextIsDigit(sql: string, n: nat)
    ensures var s := ToPgFrom(sql, n); s != [] && Digit(s[0]) <==> sql != [] && Digit(sql[0])
  {
  }

  lemma FirstSeparatedAfter(c: char, rest: string, word: bool, k: nat)
    ensures FirstSeparated(c, ToPgFrom(rest, k), word) <==> FirstSeparated(c, rest, word)
  {
    NextIsDigit(rest, k);
  }

  /** `$`, digits and something else is one parameter, and the rest. */
  lemma ParamReadsBack(starts: char -> bool, digits: string, rest: string)
    requires AllDigits(digits) && digits != [] && !DigitNext(rest)
    ensures NextToken(starts, "$" + digits + rest, false) == Reading(Param(Value(digits)), rest, false)
  {
    assert ("$" + digits + rest)[1..] == digits + rest;
    RunIs(digits, rest);
    assert (digits + rest)[..|digits|] == digits && (digits + rest)[|digits|..] == rest;
  }

  /** A digit behind a placeholder makes it another one. */
  lemma ParamChanged(starts: char -> bool, n: nat, rest: string)
    requires n > 0 && DigitNext(rest)
    ensures NextToken(starts, "$" + Decimal(n) + rest, false).token != Param(n)
  {
    var more := Run(rest);
    var digits := Decimal(n) + rest[..more];
    assert "$" + Decimal(n) + rest == "$" + digits + rest[more..];
    ParamReadsBack(starts, digits, rest[more..]);
    ValueOfDecimal(n);
    LongerIsBigger(Decimal(n), rest[..more]);
  }

  /** One character: read as meant exactly when neither a word in front nor a digit behind
      changes it. */
  lemma FirstReadsAsMeantIff(starts: char -> bool, c: char, rest: string, word: bool, n: nat)
    ensures var token := if c == '?' then Param(n + 1) else Char(c);
            var read := NextToken(starts, Piece(c, n) + rest, word);
            if FirstSeparated(c, rest, word) then read == Reading(token, rest, c != '?' && InWord(starts, word, c))
            else read.token != token
  {
    if c != '?' {
      assert ([c] + rest)[1..] == rest;
    } else if !word {
      if DigitNext(rest) {
        ParamChanged(starts, n + 1, rest);
      } else {
        ParamReadsBack(starts, Decimal(n + 1), rest);
        ValueOfDecimal(n + 1);
      }
    }
  }

  lemma SameHeadAndTail(a: Token, x: seq<Token>, b: Token, y: seq<Token>)
    ensures [a] + x == [b] + y <==> a == b && x == y
  {
    assert ([a] + x)[0] == a && ([a] + x)[1..] == x;
    assert ([b] + y)[0] == b && ([b] + y)[1..] == y;
  }

  /** The whole rewritten text: the first token read as meant, and then the rest. */
  lemma RestReadsAsMeantIff(starts: char -> bool, c: char, tail: string, word: bool, n: nat, meant: seq<Token>)
    ensures var token := if c == '?' then Param(n + 1) else Char(c);
            Numbered(starts, Piece(c, n) + tail, word) == [token] + meant <==>
            FirstSeparated(c, tail, word) && Numbered(starts, tail, c != '?' && InWord(starts, word, c)) == meant
  {
    var token := if c == '?' then Param(n + 1) else Char(c);
    var read := NextToken(starts, Piece(c, n) + tail, word);
    FirstReadsAsMeantIff(starts, c, tail, word, n);
    SameHeadAndTail(read.token, Numbered(starts, read.rest, read.word), token, meant);
  }

  /** The rewritten text reads as the original was meant exactly when no `?` stands inside
      a word and no digit right behind a `?`, or behind a `$` outside a word. */
  lemma {:induction false} ReadsAsMeantIff(starts: char -> bool, sql: string, word: bool, n: nat)
    ensures Numbered(starts, ToPgFrom(sql, n), word) == Positional(sql, n) <==> Separated(starts, sql, word)
  {
    if sql != [] {
      var c, rest, k := sql[0], sql[1..], n + Mark(sql[0]);
      var next, tail, meant := c != '?' && InWord(starts, word, c), ToPgFrom(rest, k), Positional(rest, k);
      FirstSeparatedAfter(c, rest, word, k);
      RestReadsAsMeantIff(starts, c, tail, word, n, meant);
      ReadsAsMeantIff(starts, rest, next, k);
      assert ToPgFrom(sql, n) == Piece(c, n) + tail;
      assert Positional(sql, n) == [if c == '?' then Param(n + 1) else Char(c)] + meant;
      assert Separated(starts, sql, word) <==> FirstSeparated(c, rest, word) && Separated(starts, rest, next);
    }
  }

  // ---------- the plain reader, and names ----------

  /** Nothing is a word. */
  predicate Plain(c: char) { false }

  /** No `?` and no `$` has a digit right after it. */
  predicate Apart(sql: string) {
    forall i :: 0 < i < |sql| && Digit(sql[i]) ==> sql[i - 1] != '?' && sql[i - 1] != '$'
  }

  lemma ApartTail(sql: string)
    requires sql != []
    ensures Apart(sql) <==> Apart(sql[1..]) && (DigitNext(sql[1..]) ==> sql[0] != '?' && sql[0] != '$')
  {
    if Apart(sql[1..]) && (DigitNext(sql[1..]) ==> sql[0] != '?' && sql[0] != '$') {
      forall i | 0 < i < |sql| && Digit(sql[i])
        ensures sql[i - 1] != '?' && sql[i - 1] != '$'
      {
        assert i > 1 ==> sql[1..][i - 1] == sql[i] && sql[1..][i - 2] == sql[i - 1];
      }
    }
    if Apart(sql) {
      forall i | 0 < i < |sql[1..]| && Digit(sql[1..][i])
        ensures sql[1..][i - 1] != '?' && sql[1..][i - 1] != '$'
      {
        assert Digit(sql[i + 1]);
      }
    }
  }

  /** For the plain reader only the digits count. */
  lemma {:induction false} PlainSeparatedIff(sql: string)
    ensures Separated(Plain, sql, false) <==> Apart(sql)
  {
    if sql != [] {
      ApartTail(sql);
      PlainSeparatedIff(sql[1..]);
    }
  }

  /** What a name begins with in Postgres: a letter, an underscore, anything beyond ASCII. */
  predicate NameStart(c: char) {
    'a' <= c <= 'z' || 'A' <= c <= 'Z' || c == '_' || c >= 128 as char
  }

  /** A mark right behind a name reads as part of the name, though no digit is near. */
  lemma MarkBehindName()
    ensures Apart("a?") && !Separated(NameStart, "a?", false)
  {
    assert "a?"[1..] == "?";
  }

  // ---------- substitution ----------

  /** The text with the value of each parameter in its place. */
  function Fill(tokens: seq<Token>, value: nat -> string): string {
    if tokens == [] then []
    else (match tokens[0] case Char(c) => [c] case Param(k) => value(k)) + Fill(tokens[1..], value)
  }

  /** Values put in for the `?`s from left to right. */
  function FillPositional(sql: string, n: nat, value: nat -> string): string {
    if sql == [] then []
    else (if sql[0] == '?' then value(n + 1) else [sql[0]]) + FillPositional(sql[1..], n + Mark(sql[0]), value)
  }

  lemma {:induction false} FillOfPositional(sql: string, n: nat, value: nat -> string)
    ensures Fill(Positional(sql, n), value) == FillPositional(sql, n, value)
  {
    if sql != [] {
      var k := n + Mark(sql[0]);
      FillOfPositional(sql[1..], k, value);
      assert Positional(sql, n)[1..] == Positional(sql[1..], k);
    }
  }

  /** The bound values end up where the `?`s stood, for any values and any number of them. */
  lemma SubstitutesTheSame(starts: char -> bool, sql: string, value: nat -> string)
    requires Separated(starts, sql, false)
    ensures Fill(Numbered(starts, ToPgFrom(sql, 0), false), value) == FillPositional(sql, 0, value)
  {
    ReadsAsMeantIff(starts, sql, false, 0);
    FillOfPositional(sql, 0, value);
  }

  /** The plain reader's case, with the condition spelled out. */
  lemma PlainSubstitutesTheSame(sql: string, value: nat -> string)
    requires Apart(sql)
    ensures Fill(Numbered(Plain, ToPgFrom(sql, 0), false), value) == FillPositional(sql, 0, value)
  {
    PlainSeparatedIff(sql);
    SubstitutesTheSame(Plain, sql, value);
  }
}
