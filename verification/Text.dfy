/** Splitting on whitespace as Rust's `str::split_whitespace` does it, and decimal rendering of integers. */
module Text {

  /** The code points that Unicode lists under White_Space. */
  predicate IsWhitespace(c: char) {
    var n := c as int;
    || 0x9 <= n <= 0xD || n == 0x20 || n == 0x85 || n == 0xA0 || n == 0x1680
    || 0x2000 <= n <= 0x200A || n == 0x2028 || n == 0x2029 || n == 0x202F || n == 0x205F || n == 0x3000
  }

  predicate IsWord(w: string) {
    w != "" && forall i | 0 <= i < |w| :: !IsWhitespace(w[i])
  }

  predicate AllWords(ws: seq<string>) {
    forall i | 0 <= i < |ws| :: IsWord(ws[i])
  }

  /** The length of the longest prefix without whitespace. */
  function WordLength(s: string): (n: nat)
    ensures n <= |s|
    ensures forall i | 0 <= i < n :: !IsWhitespace(s[i])
    ensures n < |s| ==> IsWhitespace(s[n])
  {
    if s == "" || IsWhitespace(s[0]) then 0 else 1 + WordLength(s[1..])
  }

  function SplitWhitespace(s: string): (words: seq<string>)
    ensures AllWords(words)
    decreases |s|
  {
    if s == "" then []
    else if IsWhitespace(s[0]) then SplitWhitespace(s[1..])
    else
      var n := WordLength(s);
      [s[..n]] + SplitWhitespace(s[n..])
  }

  function Join(words: seq<string>): string {
    if |words| == 0 then ""
    else if |words| == 1 then words[0]
    else words[0] + " " + Join(words[1..])
  }

  lemma WordLengthOfWord(w: string, rest: string)
    requires IsWord(w)
    requires rest == "" || IsWhitespace(rest[0])
    ensures WordLength(w + rest) == |w|
  {
    var s := w + rest;
    assert forall i | 0 <= i < |w| :: s[i] == w[i];
    assert |w| < |s| ==> IsWhitespace(s[|w|]);
  }

  /** Splitting a space-joined list of words gives the list back. */
  lemma {:induction false} SplitOfJoin(words: seq<string>)
    requires AllWords(words)
    ensures SplitWhitespace(Join(words)) == words
  {
    if |words| == 0 {
    } else {
      var w := words[0];
      var rest := if |words| == 1 then "" else " " + Join(words[1..]);
      var s := Join(words);
      assert s == w + rest;
      WordLengthOfWord(w, rest);
      assert s[0] == w[0] && s[..|w|] == w && s[|w|..] == rest;
      if |words| > 1 {
        assert rest[1..] == Join(words[1..]);
        SplitOfJoin(words[1..]);
      }
      assert SplitWhitespace(rest) == words[1..];
    }
  }

  /** Every whitespace character ends a word and belongs to none. */
  lemma {:induction false} SplitAtWhitespace(a: string, c: char, b: string)
    requires IsWhitespace(c)
    ensures SplitWhitespace(a + [c] + b) == SplitWhitespace(a) + SplitWhitespace(b)
    decreases |a|
  {
    var s := a + [c] + b;
    if a == "" {
      assert s[1..] == b;
    } else if IsWhitespace(a[0]) {
      assert s[0] == a[0] && s[1..] == a[1..] + [c] + b;
      SplitAtWhitespace(a[1..], c, b);
    } else {
      var n := WordLength(a);
      WordLengthBefore(a, [c] + b);
      assert s == a + ([c] + b) && s[0] == a[0] && s[..n] == a[..n] && s[n..] == a[n..] + [c] + b;
      SplitAtWhitespace(a[n..], c, b);
    }
  }

  lemma {:induction false} WordLengthBefore(a: string, rest: string)
    requires rest == "" || IsWhitespace(rest[0])
    ensures WordLength(a + rest) == WordLength(a)
    decreases |a|
  {
    if a == "" {
      assert a + rest == rest;
    } else {
      assert (a + rest)[0] == a[0] && (a + rest)[1..] == a[1..] + rest;
      WordLengthBefore(a[1..], rest);
    }
  }

  /** Of the ASCII characters, five control characters and the space are whitespace. */
  lemma AsciiWhitespace(c: char)
    requires c < 128 as char
    ensures IsWhitespace(c) <==> c in {'\t', '\n', '\U{b}', '\U{c}', '\r', ' '}
  {
  }

  /** The decimal digits of n, most significant first. */
  function Digits(n: nat): (s: string)
    ensures s != "" && (|s| == 1 <==> n < 10)
    ensures forall i | 0 <= i < |s| :: '0' <= s[i] <= '9'
  {
    var d := ['0' + (n % 10) as char];
    if n < 10 then d else Digits(n / 10) + d
  }

  /** The number that a row of decimal digits stands for, read from the left. */
  function ValueOf(s: string): int {
    if s == "" then 0 else ValueOf(s[..|s| - 1]) * 10 + (s[|s| - 1] as int - '0' as int)
  }

  /** The digits stand for the number, without a leading zero. */
  lemma {:induction false} DigitsStandFor(n: nat)
    ensures ValueOf(Digits(n)) == n && (n > 0 ==> Digits(n)[0] != '0')
  {
    var s := Digits(n);
    if n < 10 {
      assert s[..|s| - 1] == "";
    } else {
      DigitsStandFor(n / 10);
      assert s[..|s| - 1] == Digits(n / 10);
    }
  }

  /** An integer is a minus sign if it is negative, and the digits of its absolute value. */
  lemma IntToStringStandsFor(i: int)
    ensures i >= 0 ==> ValueOf(IntToString(i)) == i && (i > 0 ==> IntToString(i)[0] != '0')
    ensures i < 0 ==> IntToString(i)[0] == '-' && ValueOf(IntToString(i)[1..]) == -i
  {
    DigitsStandFor(if i < 0 then -i else i);
  }

  function IntToString(i: int): (s: string)
    ensures s != ""
  {
    if i < 0 then "-" + Digits(-i) else Digits(i)
  }

  lemma {:induction false} DigitsInjective(m: nat, n: nat)
    requires Digits(m) == Digits(n)
    ensures m == n
  {
    var a, b := Digits(m), Digits(n);
    var c, d := '0' + (m % 10) as char, '0' + (n % 10) as char;
    assert a[|a| - 1] == c && b[|b| - 1] == d;
    assert m % 10 == n % 10;
    if m >= 10 {
      assert a[..|a| - 1] == Digits(m / 10) && b[..|b| - 1] == Digits(n / 10);
      DigitsInjective(m / 10, n / 10);
    }
  }

  lemma IntToStringInjective(i: int, j: int)
    requires IntToString(i) == IntToString(j)
    ensures i == j
  {
    var a, b := IntToString(i), IntToString(j);
    assert i < 0 <==> a[0] == '-';
    assert j < 0 <==> b[0] == '-';
    if i < 0 {
      assert a[1..] == Digits(-i) && b[1..] == Digits(-j);
      DigitsInjective(-i, -j);
    } else {
      DigitsInjective(i, j);
    }
  }

  /** The number of bytes of s in UTF-8, which is what Rust's `str::len` counts. */
  function Utf8Length(s: string): nat {
    if s == "" then 0
    else
      var n := s[0] as int;
      (if n < 0x80 then 1 else if n < 0x800 then 2 else if n < 0x10000 then 3 else 4) + Utf8Length(s[1..])
  }

  /** One byte for ASCII, at most four for any character, and the lengths of parts add up. */
  lemma {:induction false} Utf8LengthOfConcat(s: string, t: string)
    ensures Utf8Length(s + t) == Utf8Length(s) + Utf8Length(t)
    decreases |s|
  {
    if s == "" {
      assert s + t == t;
    } else {
      assert (s + t)[0] == s[0] && (s + t)[1..] == s[1..] + t;
      Utf8LengthOfConcat(s[1..], t);
    }
  }

  lemma Utf8LengthOfChar(c: char)
    ensures
      var n := Utf8Length([c]);
      && (n == 1 <==> c < '\U{80}') && (n == 2 <==> '\U{80}' <= c < '\U{800}')
      && (n == 3 <==> '\U{800}' <= c < '\U{10000}') && (n == 4 <==> '\U{10000}' <= c)
  {
    assert [c][1..] == "";
  }
}
