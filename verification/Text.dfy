/**
  The text operations the mesh tools use: splitting on white space and on a separator,
  and whole numbers in decimal.
 */
module Text {
  import opened Wrappers

  // ---------- line.split() ----------

  predicate IsSpace(c: char) { c == ' ' || c == '\t' || c == '\n' || c == '\r' }

  /** A token: at least one character, none of them white space. */
  predicate IsToken(s: string) {
    |s| > 0 && forall i :: 0 <= i < |s| ==> !IsSpace(s[i])
  }

  /** The number of characters before the first white space. */
  function TokenLength(s: string): (n: nat)
    ensures n <= |s| && (forall i :: 0 <= i < n ==> !IsSpace(s[i])) && (n < |s| ==> IsSpace(s[n]))
  {
    if |s| == 0 || IsSpace(s[0]) then 0 else 1 + TokenLength(s[1..])
  }

  function Split(s: string): seq<string>
    decreases |s|
  {
    if |s| == 0 then []
    else if IsSpace(s[0]) then Split(s[1..])
    else [s[..TokenLength(s)]] + Split(s[TokenLength(s)..])
  }

  /** Tokens written with one space between them. */
  function Join(tokens: seq<string>): string
    decreases |tokens|
  {
    if |tokens| == 0 then "" else if |tokens| == 1 then tokens[0] else tokens[0] + " " + Join(tokens[1..])
  }

  lemma SplitFirst(token: string, rest: string)
    requires IsToken(token) && (|rest| > 0 ==> IsSpace(rest[0]))
    ensures Split(token + rest) == [token] + Split(rest)
  {
    var s := token + rest;
    var n := TokenLength(s);
    assert forall i :: 0 <= i < |token| ==> s[i] == token[i];
    if |rest| > 0 {
      assert s[|token|] == rest[0];
    }
    assert n == |token|;
    assert s[..n] == token && s[n..] == rest;
  }

  lemma {:induction false} SplitJoin(tokens: seq<string>)
    requires forall i :: 0 <= i < |tokens| ==> IsToken(tokens[i])
    ensures Split(Join(tokens)) == tokens
    decreases |tokens|
  {
    if |tokens| == 1 {
      assert tokens[0] + "" == tokens[0];
      SplitFirst(tokens[0], "");
    } else if |tokens| > 1 {
      var rest := Join(tokens[1..]);
      SplitJoin(tokens[1..]);
      assert Join(tokens) == tokens[0] + (" " + rest);
      SplitFirst(tokens[0], " " + rest);
      assert (" " + rest)[1..] == rest;
    }
  }

  // ---------- text.split(separator) ----------

  function IndexOf(s: string, c: char): (n: nat)
    ensures n <= |s| && (forall i :: 0 <= i < n ==> s[i] != c) && (n < |s| ==> s[n] == c)
  {
    if |s| == 0 || s[0] == c then 0 else 1 + IndexOf(s[1..], c)
  }

  function SplitOn(s: string, c: char): (r: seq<string>)
    ensures |r| >= 1
    decreases |s|
  {
    var n := IndexOf(s, c);
    if n == |s| then [s] else [s[..n]] + SplitOn(s[n + 1..], c)
  }

  predicate Without(s: string, c: char) {
    forall i :: 0 <= i < |s| ==> s[i] != c
  }

  lemma SplitOnNone(s: string, c: char)
    requires Without(s, c)
    ensures SplitOn(s, c) == [s]
  {
  }

  lemma SplitOnFirst(s: string, c: char, rest: string)
    requires Without(s, c)
    ensures SplitOn(s + [c] + rest, c) == [s] + SplitOn(rest, c)
  {
    var t := s + [c] + rest;
    var n := IndexOf(t, c);
    assert forall i :: 0 <= i < |s| ==> t[i] == s[i];
    assert t[|s|] == c;
    assert n == |s|;
    assert t[..n] == s && t[n + 1..] == rest;
  }

  lemma SplitOnTwo(a: string, b: string, d: string, c: char)
    requires Without(a, c) && Without(b, c) && Without(d, c)
    ensures SplitOn(a + [c] + b + [c] + d, c) == [a, b, d]
  {
    hide SplitOn, Without;
    assert a + [c] + b + [c] + d == a + [c] + (b + [c] + d);
    SplitOnFirst(a, c, b + [c] + d);
    SplitOnFirst(b, c, d);
    SplitOnNone(d, c);
  }

  // ---------- '%d' and int() ----------

  predicate IsDigit(c: char) { '0' <= c <= '9' }

  function DigitChar(n: nat): char
    requires n < 10
  {
    '0' + (n as char)
  }

  function PrintNat(n: nat): (s: string)
    ensures |s| > 0 && forall i :: 0 <= i < |s| ==> IsDigit(s[i])
  {
    if n < 10 then [DigitChar(n)] else PrintNat(n / 10) + [DigitChar(n % 10)]
  }

  function PrintInt(n: int): (s: string)
    ensures |s| > 0
  {
    if n < 0 then "-" + PrintNat(-n) else PrintNat(n)
  }

  function DigitValue(c: char): (n: int)
    ensures IsDigit(c) ==> 0 <= n < 10
  {
    c as int - '0' as int
  }

  /** Digits only; None for anything else, the empty text included. */
  function ParseNat(s: string): Option<nat>
    decreases |s|
  {
    if |s| == 0 || !IsDigit(s[|s| - 1]) then None
    else
      var last := DigitValue(s[|s| - 1]);
      if |s| == 1 then Some(last)
      else
        match ParseNat(s[..|s| - 1])
        case None => None
        case Some(high) => Some(10 * high + last)
  }

  function Negated(n: int): int { -n }

  function ParseInt(s: string): Option<int> {
    if |s| > 0 && s[0] == '-' then
      var n :- ParseNat(s[1..]);
      Some(Negated(n))
    else if |s| > 0 && s[0] == '+' then
      var n :- ParseNat(s[1..]);
      Some(n)
    else
      var n :- ParseNat(s);
      Some(n)
  }

  lemma {:induction false} ParsePrintedNat(n: nat)
    ensures ParseNat(PrintNat(n)) == Some(n)
  {
    if n >= 10 {
      var s := PrintNat(n);
      ParsePrintedNat(n / 10);
      assert s[..|s| - 1] == PrintNat(n / 10);
    }
  }

  lemma ParsePrinted(n: int)
    ensures ParseInt(PrintInt(n)) == Some(n)
  {
    hide ParseNat, PrintNat;
    if n < 0 {
      assert PrintInt(n)[1..] == PrintNat(-n);
      ParsePrintedNat(-n);
    } else {
      assert IsDigit(PrintNat(n)[0]);
      ParsePrintedNat(n);
    }
  }

  lemma PrintedCharacters(n: int)
    ensures IsToken(PrintInt(n)) && Without(PrintInt(n), '/')
  {
    var s := if n < 0 then PrintNat(-n) else PrintNat(n);
    assert forall i :: 0 <= i < |s| ==> IsDigit(s[i]);
    assert forall i :: 0 <= i < |PrintInt(n)| ==> PrintInt(n)[i] == '-' || IsDigit(PrintInt(n)[i]);
  }
}
