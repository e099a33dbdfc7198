/**
 * The string operations of Rust's standard library that the server relies on:
 * substring search, prefix stripping, integer formatting and parsing into a
 * signed 64-bit integer, joining, and the test for a blank line.
 */
module Text {
  import opened Wrappers
  import opened JsonValue

  // ---------------------------------------------------------------- prefixes

  /** `s` starts with `p`. */
  predicate HasPrefix(s: string, p: string) {
    |p| <= |s| && s[..|p|] == p
  }

  /** What follows `p` when `s` starts with it; nothing otherwise. */
  function StripPrefix(s: string, p: string): (r: Option<string>)
    ensures r.Some? <==> HasPrefix(s, p)
    ensures r.Some? ==> p + r.value == s
  {
    if HasPrefix(s, p) then Some(s[|p|..]) else None
  }

  lemma StripPrefixOfConcat(p: string, rest: string)
    ensures StripPrefix(p + rest, p) == Some(rest)
  {
    assert (p + rest)[..|p|] == p;
    assert (p + rest)[|p|..] == rest;
  }

  // --------------------------------------------------------------- substrings

  /** `p` occurs in `s` starting at position `i`. */
  ghost predicate OccursAt(p: string, s: string, i: int) {
    0 <= i <= |s| - |p| && s[i..i + |p|] == p
  }

  /** `p` occurs in `s` at some position. */
  ghost predicate OccursIn(p: string, s: string) {
    exists i :: OccursAt(p, s, i)
  }

  /** Substring search for `p`, from the left. */
  function Contains(s: string, p: string): bool
    decreases |s|
  {
    if |p| > |s| then false
    else if s[..|p|] == p then true
    else Contains(s[1..], p)
  }

  /** `Contains` finds exactly the patterns that occur somewhere in the string. */
  lemma {:induction false} ContainsIffOccurs(s: string, p: string)
    ensures Contains(s, p) <==> OccursIn(p, s)
    decreases |s|
  {
    if |p| > |s| {
    } else if s[..|p|] == p {
      assert OccursAt(p, s, 0);
    } else {
      ContainsIffOccurs(s[1..], p);
      if OccursIn(p, s) {
        var i :| OccursAt(p, s, i);
        assert i != 0;
        assert s[1..][i - 1..i - 1 + |p|] == s[i..i + |p|];
        assert OccursAt(p, s[1..], i - 1);
      }
      if OccursIn(p, s[1..]) {
        var i :| OccursAt(p, s[1..], i);
        assert s[i + 1..i + 1 + |p|] == s[1..][i..i + |p|];
        assert OccursAt(p, s, i + 1);
      }
    }
  }

  /** A string contains every infix of a concatenation it is the middle of. */
  lemma ContainsMiddle(a: string, p: string, b: string)
    ensures Contains(a + p + b, p)
  {
    var s := a + p + b;
    assert s[|a|..|a| + |p|] == p;
    assert OccursAt(p, s, |a|);
    ContainsIffOccurs(s, p);
  }

  /** What a string's tail contains, the whole string contains. */
  lemma ContainsInSuffix(a: string, b: string, p: string)
    requires Contains(b, p)
    ensures Contains(a + b, p)
  {
    ContainsIffOccurs(b, p);
    var i :| OccursAt(p, b, i);
    assert (a + b)[|a| + i..|a| + i + |p|] == b[i..i + |p|];
    assert OccursAt(p, a + b, |a| + i);
    ContainsIffOccurs(a + b, p);
  }

  /** Containment passes through an intermediate string. */
  lemma ContainsTransitive(s: string, m: string, p: string)
    requires Contains(s, m) && Contains(m, p)
    ensures Contains(s, p)
  {
    ContainsIffOccurs(s, m);
    ContainsIffOccurs(m, p);
    var i :| OccursAt(m, s, i);
    var j :| OccursAt(p, m, j);
    forall k | 0 <= k < |p|
      ensures s[i + j + k] == p[k]
    {
      assert p[k] == m[j..j + |p|][k] == m[j + k];
      assert m[j + k] == s[i..i + |m|][j + k] == s[i + j + k];
    }
    assert s[i + j..i + j + |p|] == p;
    assert OccursAt(p, s, i + j);
    ContainsIffOccurs(s, p);
  }

  /** Every part contained in the middle string is contained in the outer one. */
  lemma ContainsAllTransitive(s: string, m: string, parts: seq<string>)
    requires Contains(s, m)
    requires forall k :: 0 <= k < |parts| ==> Contains(m, parts[k])
    ensures forall k :: 0 <= k < |parts| ==> Contains(s, parts[k])
  {
    forall k | 0 <= k < |parts|
      ensures Contains(s, parts[k])
    {
      ContainsTransitive(s, m, parts[k]);
    }
  }

  /** A prefix of a prefix is a prefix. */
  lemma PrefixTransitive(s: string, p: string, q: string)
    requires HasPrefix(s, p) && HasPrefix(p, q)
    ensures HasPrefix(s, q)
  {
    assert s[..|q|] == s[..|p|][..|q|];
  }

  /** The concatenation of the pieces, in order: what `format!` produces from its template. */
  function Concat(pieces: seq<string>): string {
    if pieces == [] then "" else pieces[0] + Concat(pieces[1..])
  }

  /** A text starts with its first piece. */
  lemma ConcatStartsWithFirst(ps: seq<string>)
    requires |ps| >= 1
    ensures HasPrefix(Concat(ps), ps[0])
  {
    assert Concat(ps) == ps[0] + Concat(ps[1..]);
    assert (ps[0] + Concat(ps[1..]))[..|ps[0]|] == ps[0];
  }

  /** A text contains each of its pieces. */
  lemma {:induction false} ConcatContains(ps: seq<string>, k: nat)
    requires k < |ps|
    ensures Contains(Concat(ps), ps[k])
    decreases k
  {
    var rest := Concat(ps[1..]);
    assert Concat(ps) == ps[0] + rest;
    if k == 0 {
      ContainsMiddle("", ps[0], rest);
      assert "" + ps[0] + rest == ps[0] + rest;
    } else {
      ConcatContains(ps[1..], k - 1);
      ContainsInSuffix(ps[0], rest, ps[k]);
    }
  }

  // ------------------------------------------------------------------ numbers

  predicate IsDigit(c: char) {
    '0' <= c <= '9'
  }

  predicate AllDigits(s: string) {
    forall i :: 0 <= i < |s| ==> IsDigit(s[i])
  }

  function DigitChar(d: nat): (c: char)
    requires d < 10
    ensures IsDigit(c) && (c as int) - ('0' as int) == d
  {
    (('0' as int) + d) as char
  }

  /** The value of a string of decimal digits. */
  function DigitsValue(s: string): nat
    requires AllDigits(s)
  {
    if s == [] then 0
    else 10 * DigitsValue(s[..|s| - 1]) + ((s[|s| - 1] as int) - ('0' as int))
  }

  /** An unsigned integer written out: its shortest decimal digits. */
  function NatToString(n: nat): (r: string)
    ensures |r| > 0 && AllDigits(r)
    ensures |r| > 1 ==> r[0] != '0'
    decreases n
  {
    if n < 10 then [DigitChar(n)] else NatToString(n / 10) + [DigitChar(n % 10)]
  }

  /** Reading the digits back gives the number they were written from. */
  lemma {:induction false} NatToStringRoundTrip(n: nat)
    ensures DigitsValue(NatToString(n)) == n
    decreases n
  {
    if n >= 10 {
      var s := NatToString(n);
      NatToStringRoundTrip(n / 10);
      assert s[..|s| - 1] == NatToString(n / 10);
    }
  }

  /** A signed integer written out: a minus sign when negative, then the digits. */
  function IntToString(i: int): string {
    if i < 0 then "-" + NatToString(-i) else NatToString(i)
  }

  /** The text after an optional leading `+` or `-`. */
  function Magnitude(s: string): (m: string)
    ensures |m| <= |s| && m == s[|s| - |m|..]
  {
    if |s| > 0 && (s[0] == '-' || s[0] == '+') then s[1..] else s
  }

  /**
   * Integer parsing into `i64`: an optional `+` or `-`, then one or more ASCII
   * digits, with the value inside the range of `i64`; any other text is an error.
   */
  function ParseI64(s: string): (r: Option<int>)
    ensures r.Some? <==>
      |Magnitude(s)| > 0 && AllDigits(Magnitude(s))
      && InI64(if s[0] == '-' then -(DigitsValue(Magnitude(s)) as int) else DigitsValue(Magnitude(s)) as int)
    ensures r.Some? ==>
      r.value == (if s[0] == '-' then -(DigitsValue(Magnitude(s)) as int) else DigitsValue(Magnitude(s)) as int)
  {
    var digits := Magnitude(s);
    if |digits| == 0 || !AllDigits(digits) then None
    else
      var n: int := DigitsValue(digits);
      var v := if s[0] == '-' then -n else n;
      if InI64(v) then Some(v) else None
  }

  /** A character other than a digit after the first position makes the text unparseable. */
  lemma NonDigitRejected(s: string, i: nat)
    requires 0 < i < |s| && !IsDigit(s[i])
    ensures ParseI64(s) == None
  {
    var m := Magnitude(s);
    assert m[i - (|s| - |m|)] == s[i];
  }

  /** Every `i64` survives being written out and parsed back. */
  lemma ParseI64RoundTrip(i: int)
    requires InI64(i)
    ensures ParseI64(IntToString(i)) == Some(i)
  {
    var s := IntToString(i);
    if i < 0 {
      var digits := NatToString(-i);
      assert s == "-" + digits;
      assert Magnitude(s) == digits by { assert s[0] == '-' && s[1..] == digits; }
      NatToStringRoundTrip(-i);
      assert DigitsValue(Magnitude(s)) == -i;
    } else {
      assert s == NatToString(i);
      assert Magnitude(s) == s by { assert IsDigit(s[0]); }
      NatToStringRoundTrip(i);
      assert DigitsValue(Magnitude(s)) == i;
    }
  }

  // ------------------------------------------------------------ subsequences

  /** `idx` picks, in increasing positions of `s`, the elements of `r`. */
  ghost predicate IndexMap<T>(idx: seq<int>, r: seq<T>, s: seq<T>) {
    && |idx| == |r|
    && (forall i :: 0 <= i < |idx| ==> 0 <= idx[i] < |s| && r[i] == s[idx[i]])
    && (forall i, j :: 0 <= i < j < |idx| ==> idx[i] < idx[j])
  }

  /** `r` is `s` with some elements left out and the rest kept in order. */
  ghost predicate IsSubsequence<T>(r: seq<T>, s: seq<T>) {
    exists idx :: IndexMap(idx, r, s)
  }

  /** The first components of a list of pairs, in order. */
  function Firsts<A, B>(ps: seq<(A, B)>): (r: seq<A>)
    ensures |r| == |ps| && forall i :: 0 <= i < |ps| ==> r[i] == ps[i].0
  {
    if ps == [] then [] else [ps[0].0] + Firsts(ps[1..])
  }

  /** Putting a pair in front puts its first component in front. */
  lemma FirstsCons<A, B>(p: (A, B), ps: seq<(A, B)>)
    ensures Firsts([p] + ps) == [p.0] + Firsts(ps)
  {
    assert ([p] + ps)[1..] == ps;
  }

  lemma SubsequenceEmpty<T>(s: seq<T>)
    ensures IsSubsequence([], s)
  {
    assert IndexMap([], [], s);
  }

  /** Leaving out a new first element keeps a subsequence a subsequence. */
  lemma SubsequenceSkip<T>(x: T, r: seq<T>, s: seq<T>)
    requires IsSubsequence(r, s)
    ensures IsSubsequence(r, [x] + s)
  {
    var idx :| IndexMap(idx, r, s);
    var shifted := seq(|idx|, i requires 0 <= i < |idx| => idx[i] + 1);
    assert IndexMap(shifted, r, [x] + s);
  }

  /** Keeping a new first element on both sides keeps a subsequence a subsequence. */
  lemma SubsequenceKeep<T>(x: T, r: seq<T>, s: seq<T>)
    requires IsSubsequence(r, s)
    ensures IsSubsequence([x] + r, [x] + s)
  {
    var idx :| IndexMap(idx, r, s);
    var shifted := [0] + seq(|idx|, i requires 0 <= i < |idx| => idx[i] + 1);
    assert IndexMap(shifted, [x] + r, [x] + s);
  }

  // ------------------------------------------------------------- joining text

  /** The first `n` elements, or all of them when there are fewer. */
  function Take<T>(xs: seq<T>, n: nat): (r: seq<T>)
    ensures |r| == if |xs| <= n then |xs| else n
    ensures forall i :: 0 <= i < |r| ==> r[i] == xs[i]
  {
    if |xs| <= n then xs else xs[..n]
  }


  /** The parts with `sep` between each two neighbours. */
  function Join(parts: seq<string>, sep: string): (r: string)
    ensures |parts| >= 1 ==> HasPrefix(r, parts[0])
    decreases |parts|
  {
    if |parts| == 0 then ""
    else if |parts| == 1 then parts[0]
    else
      assert (parts[0] + sep + Join(parts[1..], sep))[..|parts[0]|] == parts[0];
      parts[0] + sep + Join(parts[1..], sep)
  }

  /** Joining keeps every part in the joined text. */
  lemma {:induction false} JoinContainsParts(parts: seq<string>, sep: string, k: nat)
    requires k < |parts|
    ensures Contains(Join(parts, sep), parts[k])
    decreases |parts|
  {
    if |parts| == 1 {
      ContainsMiddle("", parts[0], "");
      assert "" + parts[0] + "" == parts[0];
    } else if k == 0 {
      ContainsMiddle("", parts[0], sep + Join(parts[1..], sep));
      assert "" + parts[0] + (sep + Join(parts[1..], sep)) == Join(parts, sep);
    } else {
      JoinContainsParts(parts[1..], sep, k - 1);
      assert Join(parts, sep) == (parts[0] + sep) + Join(parts[1..], sep);
      ContainsInSuffix(parts[0] + sep, Join(parts[1..], sep), parts[k]);
    }
  }

  /** Joining keeps all the parts in the joined text. */
  lemma JoinContainsAll(parts: seq<string>, sep: string)
    ensures forall k :: 0 <= k < |parts| ==> Contains(Join(parts, sep), parts[k])
  {
    forall k | 0 <= k < |parts|
      ensures Contains(Join(parts, sep), parts[k])
    {
      JoinContainsParts(parts, sep, k);
    }
  }

  // ------------------------------------------------------------- blank lines

  /** `char::is_whitespace`: the Unicode White_Space property. */
  predicate IsWhitespace(c: char) {
    || c == ' '
    || ('\t' <= c <= '\r')
    || c == '\U{85}'
    || c == '\U{A0}'
    || c == '\U{1680}'
    || ('\U{2000}' <= c <= '\U{200A}')
    || c == '\U{2028}'
    || c == '\U{2029}'
    || c == '\U{202F}'
    || c == '\U{205F}'
    || c == '\U{3000}'
  }

  /** The text without its leading whitespace. */
  function TrimStart(s: string): (r: string)
    ensures |r| <= |s| && r == s[|s| - |r|..]
    ensures forall i :: 0 <= i < |s| - |r| ==> IsWhitespace(s[i])
    ensures r == "" || !IsWhitespace(r[0])
  {
    if s != "" && IsWhitespace(s[0]) then TrimStart(s[1..]) else s
  }

  /** The text without its trailing whitespace. */
  function TrimEnd(s: string): (r: string)
    ensures |r| <= |s| && r == s[..|r|]
    ensures forall i :: |r| <= i < |s| ==> IsWhitespace(s[i])
    ensures r == "" || !IsWhitespace(r[|r| - 1])
  {
    if s != "" && IsWhitespace(s[|s| - 1]) then TrimEnd(s[..|s| - 1]) else s
  }

  /** The text without whitespace at either end. */
  function Trim(s: string): string {
    TrimEnd(TrimStart(s))
  }

  /** The line is empty once trimmed. */
  predicate IsBlank(line: string) {
    Trim(line) == ""
  }

  /** A line is blank exactly when it holds nothing but whitespace. */
  lemma BlankIffAllWhitespace(line: string)
    ensures IsBlank(line) <==> forall i :: 0 <= i < |line| ==> IsWhitespace(line[i])
  {
    var t := TrimStart(line);
    if t != "" {
      assert !IsWhitespace(t[0]);
      assert TrimEnd(t) != "";
      assert line[|line| - |t|] == t[0];
    }
  }
}
