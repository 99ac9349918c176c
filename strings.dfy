/**
 * The pieces of JavaScript string behaviour the bot relies on: the `\s` class,
 * `toLowerCase` (on ASCII letters), `trim`, splitting on white space, and the
 * decimal text of an integer (`String(n)`).
 */
module Strings {
  import opened Seqs

  /** JavaScript's `\s` class, which is also what `String.prototype.trim` removes. */
  predicate IsSpace(c: char) {
    c == ' ' || c == '\t' || c == '\n' || c == '\U{B}' || c == '\U{C}' || c == '\r'
    || c == '\U{A0}' || c == '\U{1680}' || ('\U{2000}' <= c <= '\U{200A}')
    || c == '\U{2028}' || c == '\U{2029}' || c == '\U{202F}' || c == '\U{205F}'
    || c == '\U{3000}' || c == '\U{FEFF}'
  }

  predicate IsDigit(c: char) {
    '0' <= c <= '9'
  }

  function LowerChar(c: char): char {
    if 'A' <= c <= 'Z' then (c as int + 32) as char else c
  }

  /** `toLowerCase`, on the ASCII letters. */
  function Lower(s: string): (r: string)
    ensures |r| == |s|
    ensures forall i | 0 <= i < |s| :: r[i] == LowerChar(s[i])
  {
    if s == [] then [] else [LowerChar(s[0])] + Lower(s[1..])
  }

  function TrimStart(s: string): (r: string)
    ensures |r| <= |s| && r == s[|s| - |r|..]
    ensures forall k | 0 <= k < |s| - |r| :: IsSpace(s[k])
    ensures r == [] || !IsSpace(r[0])
  {
    if s != [] && IsSpace(s[0]) then TrimStart(s[1..]) else s
  }

  function TrimEnd(s: string): (r: string)
    ensures |r| <= |s| && r == s[..|r|]
    ensures forall k | |r| <= k < |s| :: IsSpace(s[k])
    ensures r == [] || !IsSpace(r[|r| - 1])
  {
    if s != [] && IsSpace(s[|s| - 1]) then TrimEnd(s[..|s| - 1]) else s
  }

  /** `trim`: the white space at both ends is removed. */
  function Trim(s: string): string {
    TrimEnd(TrimStart(s))
  }

  /**
   * What `trim` keeps is a slice of the input that neither starts nor ends with white
   * space, and everything it drops is white space; so it is empty exactly when the
   * input is blank.
   */
  lemma TrimSpec(s: string)
    ensures var i, r := |s| - |TrimStart(s)|, Trim(s);
      && i + |r| <= |s| && s[i..i + |r|] == r
      && (forall k | 0 <= k < i :: IsSpace(s[k]))
      && (forall k | i + |r| <= k < |s| :: IsSpace(s[k]))
      && (r != [] ==> !IsSpace(r[0]) && !IsSpace(r[|r| - 1]))
      && (r == [] <==> forall k | 0 <= k < |s| :: IsSpace(s[k]))
  {
    TrimSlice(s);
    TrimTail(s);
    TrimEnds(s);
    TrimBlank(s);
  }

  lemma TrimSlice(s: string)
    ensures var i, r := |s| - |TrimStart(s)|, Trim(s);
      i + |r| <= |s| && s[i..i + |r|] == r
  {
    var u := TrimStart(s);
    var i := |s| - |u|;
    var r := TrimEnd(u);
    PrefixOfSuffix(s, u, r);
  }

  /** A prefix of a suffix is a slice; stated apart from any text property. */
  lemma PrefixOfSuffix<T>(s: seq<T>, u: seq<T>, r: seq<T>)
    requires |u| <= |s| && u == s[|s| - |u|..] && |r| <= |u| && r == u[..|r|]
    ensures s[|s| - |u|..|s| - |u| + |r|] == r
  {
  }

  lemma TrimTail(s: string)
    ensures var i, r := |s| - |TrimStart(s)|, Trim(s);
      forall k | i + |r| <= k < |s| :: IsSpace(s[k])
  {
    var u := TrimStart(s);
    TailOfSuffix(s, u, |TrimEnd(u)|, IsSpace);
  }

  /** What holds past position `n` of a suffix holds at the same places of the whole. */
  lemma TailOfSuffix<T>(s: seq<T>, u: seq<T>, n: nat, p: T -> bool)
    requires |u| <= |s| && u == s[|s| - |u|..]
    requires forall k | n <= k < |u| :: p(u[k])
    ensures forall k | |s| - |u| + n <= k < |s| :: p(s[k])
  {
    forall k | |s| - |u| + n <= k < |s|
      ensures p(s[k])
    {
      assert s[k] == u[k - (|s| - |u|)];
    }
  }

  lemma TrimEnds(s: string)
    ensures var r := Trim(s); r != [] ==> !IsSpace(r[0]) && !IsSpace(r[|r| - 1])
  {
    var u := TrimStart(s);
    var r := TrimEnd(u);
    if r != [] {
      assert r[0] == u[0];
    }
  }

  /** A text trims to nothing exactly when it is blank. */
  lemma TrimBlank(s: string)
    ensures Trim(s) == [] <==> forall k | 0 <= k < |s| :: IsSpace(s[k])
  {
    var u := TrimStart(s);
    var i := |s| - |u|;
    assert s[i..] == u;
    if Trim(s) != [] && u != [] {
      assert s[i] == u[0];
    }
  }

  /** The number of non-space characters at the front of `s`. */
  function RunLength(s: string): (n: nat)
    ensures n <= |s|
    ensures forall k | 0 <= k < n :: !IsSpace(s[k])
    ensures n == |s| || IsSpace(s[n])
  {
    if s == [] || IsSpace(s[0]) then 0 else 1 + RunLength(s[1..])
  }

  /**
   * The maximal runs of non-space characters, in order. This is `split(/\s+/)`
   * without the empty strings it yields when `s` starts or ends with white space.
   */
  function Words(s: string): (ws: seq<string>)
    decreases |s|
    ensures forall w | w in ws :: w != [] && forall k | 0 <= k < |w| :: !IsSpace(w[k])
  {
    if s == [] then []
    else if IsSpace(s[0]) then Words(s[1..])
    else
      var n := RunLength(s);
      [s[..n]] + Words(s[n..])
  }

  /** The non-space characters of `s`, in order. */
  function NonSpace(s: string): string {
    if s == [] then [] else (if IsSpace(s[0]) then [] else [s[0]]) + NonSpace(s[1..])
  }

  lemma {:induction false} NonSpaceAppend(a: string, b: string)
    ensures NonSpace(a + b) == NonSpace(a) + NonSpace(b)
  {
    if a == [] {
      assert a + b == b;
    } else {
      assert (a + b)[1..] == a[1..] + b;
      NonSpaceAppend(a[1..], b);
    }
  }

  lemma {:induction false} NonSpaceOfWord(w: string)
    requires forall k | 0 <= k < |w| :: !IsSpace(w[k])
    ensures NonSpace(w) == w
  {
    if w != [] {
      NonSpaceOfWord(w[1..]);
    }
  }

  /** Splitting loses nothing but white space: the words, joined, are the non-space characters. */
  lemma {:induction false} WordsJoin(s: string)
    decreases |s|
    ensures Flatten(Words(s)) == NonSpace(s)
  {
    if s == [] {
    } else if IsSpace(s[0]) {
      WordsJoin(s[1..]);
    } else {
      var n := RunLength(s);
      WordsJoin(s[n..]);
      assert ([s[..n]] + Words(s[n..]))[1..] == Words(s[n..]);
      assert s == s[..n] + s[n..];
      NonSpaceAppend(s[..n], s[n..]);
      NonSpaceOfWord(s[..n]);
    }
  }

  function DigitChar(d: nat): char
    requires d < 10
  {
    ('0' as int + d) as char
  }

  /** `String(n)` for a natural number: its decimal digits. */
  function NatToString(n: nat): (r: string)
    ensures r != [] && forall k | 0 <= k < |r| :: IsDigit(r[k])
  {
    if n < 10 then [DigitChar(n)] else NatToString(n / 10) + [DigitChar(n % 10)]
  }

  /** `String(i)` for an integer (below 10^21, where JavaScript switches to exponent notation). */
  function IntToString(i: int): string {
    if i < 0 then "-" + NatToString(-i) else NatToString(i)
  }

  /** The number a string of decimal digits denotes. */
  function DigitsValue(s: string): nat
    requires forall k | 0 <= k < |s| :: IsDigit(s[k])
  {
    if s == [] then 0
    else
      var c := s[|s| - 1];
      assert IsDigit(c);
      DigitsValue(s[..|s| - 1]) * 10 + (c as int - '0' as int)
  }

  /** Reading the decimal text back gives the number. */
  lemma {:induction false} NatToStringRoundTrip(n: nat)
    ensures DigitsValue(NatToString(n)) == n
  {
    if n >= 10 {
      NatToStringRoundTrip(n / 10);
      var r := NatToString(n);
      assert r[..|r| - 1] == NatToString(n / 10);
    }
  }
}
