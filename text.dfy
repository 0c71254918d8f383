/**
 * The few Python string and path operations the project code relies on:
 * `str.split()` with no separator, `" ".join(...)`, `s.split(c)[0]`,
 * `posixpath.join` and `str(int)`.
 */
module Text {

  /** Python's `str.isspace` on one character: the characters `str.split()` splits on. */
  predicate IsSpace(c: char) {
    ('\t' <= c <= '\r') || ('\U{1C}' <= c <= ' ')
    || c == '\U{85}' || c == '\U{A0}' || c == '\U{1680}'
    || ('\U{2000}' <= c <= '\U{200A}')
    || c == '\U{2028}' || c == '\U{2029}' || c == '\U{202F}' || c == '\U{205F}' || c == '\U{3000}'
  }

  /** A word `str.split()` can produce: non-empty and free of whitespace. */
  predicate IsToken(w: string) {
    w != [] && forall i :: 0 <= i < |w| ==> !IsSpace(w[i])
  }

  predicate AllSpace(s: string) {
    forall i :: 0 <= i < |s| ==> IsSpace(s[i])
  }

  /** `s` with its leading whitespace removed. */
  function DropSpace(s: string): (r: string)
    ensures |r| <= |s| && r == s[|s| - |r|..]
    ensures r == [] || !IsSpace(r[0])
    ensures AllSpace(s[..|s| - |r|])
  {
    if s != [] && IsSpace(s[0]) then
      var r := DropSpace(s[1..]);
      assert s[..|s| - |r|] == [s[0]] + s[1..][..|s| - 1 - |r|];
      r
    else s
  }

  /** The longest prefix of `s` that holds no whitespace. */
  function Word(s: string): (r: string)
    ensures r <= s
    ensures forall i :: 0 <= i < |r| ==> !IsSpace(r[i])
    ensures |r| == |s| || IsSpace(s[|r|])
  {
    if s != [] && !IsSpace(s[0]) then [s[0]] + Word(s[1..]) else []
  }

  /** Python's `s.split()`: the maximal runs of non-whitespace characters, in order. */
  function Split(s: string): seq<string>
    decreases |s|
  {
    var t := DropSpace(s);
    if t == [] then []
    else
      var w := Word(t);
      assert w != [] by { assert |w| == |t| || IsSpace(t[|w|]); }
      [w] + Split(t[|w|..])
  }

  /** Every word `s.split()` gives is non-empty and free of whitespace. */
  lemma {:induction false} SplitTokens(s: string)
    ensures forall i :: 0 <= i < |Split(s)| ==> IsToken(Split(s)[i])
    decreases |s|
  {
    var t := DropSpace(s);
    if t != [] {
      var w := Word(t);
      assert w != [] by { assert |w| == |t| || IsSpace(t[|w|]); }
      var tail := t[|w|..];
      var ws := Split(s);
      assert ws == [w] + Split(tail);
      SplitTokens(tail);
      forall i | 0 <= i < |ws|
        ensures IsToken(ws[i])
      {
        if i > 0 {
          assert ws[i] == Split(tail)[i - 1];
        }
      }
    }
  }

  /** Python's `" ".join(ws)`. */
  function JoinSpace(ws: seq<string>): string {
    if ws == [] then ""
    else if |ws| == 1 then ws[0]
    else ws[0] + " " + JoinSpace(ws[1..])
  }

  lemma {:induction false} WordOfToken(w: string, rest: string)
    requires IsToken(w)
    requires rest == [] || IsSpace(rest[0])
    ensures Word(w + rest) == w
    decreases |w|
  {
    if |w| > 1 {
      assert (w + rest)[1..] == w[1..] + rest;
      WordOfToken(w[1..], rest);
    } else {
      assert (w + rest)[1..] == rest;
    }
  }

  lemma SplitOneToken(w: string)
    requires IsToken(w)
    ensures Split(w) == [w]
  {
    assert DropSpace(w) == w;
    WordOfToken(w, []);
    assert w + [] == w;
    assert w[|w|..] == [];
  }

  lemma SplitLeadingSpace(rest: string)
    ensures Split(" " + rest) == Split(rest)
  {
    var s := " " + rest;
    assert s[0] == ' ' && s[1..] == rest;
    assert DropSpace(s) == DropSpace(rest);
  }

  lemma SplitTokenThenSpace(w: string, rest: string)
    requires IsToken(w)
    ensures Split(w + " " + rest) == [w] + Split(rest)
  {
    var s := w + " " + rest;
    assert s == w + (" " + rest);
    assert DropSpace(s) == s;
    WordOfToken(w, " " + rest);
    assert s[|w|..] == " " + rest;
    SplitLeadingSpace(rest);
  }

  /** Splitting what `" ".join` produced from split-shaped words gives the words back. */
  lemma {:induction false} SplitJoin(ws: seq<string>)
    requires forall i :: 0 <= i < |ws| ==> IsToken(ws[i])
    ensures Split(JoinSpace(ws)) == ws
    decreases |ws|
  {
    if ws == [] {
      assert JoinSpace(ws) == "";
    } else if |ws| == 1 {
      assert JoinSpace(ws) == ws[0];
      SplitOneToken(ws[0]);
    } else {
      var rest := JoinSpace(ws[1..]);
      calc {
        Split(JoinSpace(ws));
        { assert JoinSpace(ws) == ws[0] + " " + rest; }
        Split(ws[0] + " " + rest);
        { SplitTokenThenSpace(ws[0], rest); }
        [ws[0]] + Split(rest);
        { SplitJoin(ws[1..]); }
        [ws[0]] + ws[1..];
        ws;
      }
    }
  }

  /** Joining the words of `s.split()` with spaces and splitting again gives the same words. */
  lemma SplitJoinSplit(s: string)
    ensures Split(JoinSpace(Split(s))) == Split(s)
  {
    SplitTokens(s);
    SplitJoin(Split(s));
  }

  /** `s.split()` is empty exactly when `s` holds nothing but whitespace. */
  lemma SplitEmpty(s: string)
    ensures Split(s) == [] <==> AllSpace(s)
  {
    var t := DropSpace(s);
    assert s == s[..|s| - |t|] + t;
    if t != [] {
      assert !IsSpace(s[|s| - |t|]);
    }
  }

  /** Python's `s.split(sep)[0]`: the part of `s` before the first `sep`, or all of `s`. */
  function BeforeFirst(s: string, sep: char): (r: string)
    ensures r <= s
    ensures sep !in r
    ensures |r| < |s| ==> s[|r|] == sep
  {
    if s == [] || s[0] == sep then [] else [s[0]] + BeforeFirst(s[1..], sep)
  }

  predicate IsAbsolute(p: string) {
    p != [] && p[0] == '/'
  }

  /** Python's `posixpath.join(a, b)` for two components. */
  function PathJoin(a: string, b: string): (r: string)
    ensures |b| <= |r| && r[|r| - |b|..] == b
    ensures IsAbsolute(b) ==> r == b
    ensures !IsAbsolute(b) ==> a <= r
    ensures IsAbsolute(a) || IsAbsolute(b) ==> IsAbsolute(r)
  {
    if IsAbsolute(b) then b
    else if a == [] || a[|a| - 1] == '/' then a + b
    else a + "/" + b
  }

  /** Joining a relative component appends it after `sep`: nothing after a trailing `/`, a `/` otherwise. */
  lemma PathJoinAppends(a: string, b: string, sep: string)
    requires b != [] && b[0] != '/'
    requires a != [] && (if a[|a| - 1] == '/' then sep == "" else sep == "/")
    ensures PathJoin(a, b) == a + sep + b
  {
  }

  function DigitChar(d: nat): char
    requires d < 10
  {
    ('0' as int + d) as char
  }

  function NatToString(n: nat): string
    decreases n
  {
    if n < 10 then [DigitChar(n)] else NatToString(n / 10) + [DigitChar(n % 10)]
  }

  /** Python's `str(n)` (and `f"{n}"`) for an integer. */
  function IntToString(n: int): string {
    if n < 0 then "-" + NatToString(-n) else NatToString(n)
  }

  predicate IsDigit(c: char) {
    '0' <= c <= '9'
  }

  /** The value of a string of decimal digits, as Python's `int(s)` reads it. */
  function DigitsValue(s: string): nat
    requires forall i :: 0 <= i < |s| ==> IsDigit(s[i])
  {
    if s == [] then 0
    else
      assert IsDigit(s[|s| - 1]);
      10 * DigitsValue(s[..|s| - 1]) + (s[|s| - 1] as int - '0' as int)
  }

  /** Python's `int(s)` on an optional minus sign followed by decimal digits. */
  function ParseInt(s: string): int
    requires s != [] && (s[0] == '-' || IsDigit(s[0]))
    requires forall i :: 0 < i < |s| ==> IsDigit(s[i])
  {
    if s[0] == '-' then -(DigitsValue(s[1..]) as int) else DigitsValue(s) as int
  }

  /** `str(n)` for a natural number is a non-empty string of digits whose value is `n`. */
  lemma {:induction false} NatToStringDigits(n: nat)
    ensures NatToString(n) != []
    ensures forall i :: 0 <= i < |NatToString(n)| ==> IsDigit(NatToString(n)[i])
    ensures DigitsValue(NatToString(n)) == n
    decreases n
  {
    if n >= 10 {
      var init := NatToString(n / 10);
      NatToStringDigits(n / 10);
      assert (init + [DigitChar(n % 10)])[..|init|] == init;
    }
  }

  /** `str(n)` is a minus sign for a negative `n`, then digits, and `int(str(n)) == n`. */
  lemma IntToStringRoundTrip(n: int)
    ensures IntToString(n) != []
    ensures IntToString(n)[0] == '-' <==> n < 0
    ensures n >= 0 ==> IsDigit(IntToString(n)[0])
    ensures forall i :: 0 < i < |IntToString(n)| ==> IsDigit(IntToString(n)[i])
    ensures ParseInt(IntToString(n)) == n
  {
    if n < 0 {
      NatToStringDigits(-n);
      assert IntToString(n)[1..] == NatToString(-n);
    } else {
      NatToStringDigits(n);
    }
  }
}
