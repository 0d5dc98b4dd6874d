/** The Python `str` operations that the command executor and the session loop
    rely on, restricted to ASCII: whitespace is CPython's ASCII whitespace set
    and case folding maps only `A`-`Z`. */
module PyStrings {
  import opened Wrappers

  /** `c.isspace()` for an ASCII character: tab, line feed, vertical tab,
      form feed, carriage return, the separators 0x1c-0x1f, and space. */
  predicate IsSpace(c: char) {
    (9 <= c as int <= 13) || (28 <= c as int <= 32)
  }

  predicate AllSpace(s: string) {
    forall i :: 0 <= i < |s| ==> IsSpace(s[i])
  }

  /** `s.isspace()`: at least one character, and every character whitespace. */
  predicate IsSpaceString(s: string) {
    |s| > 0 && AllSpace(s)
  }

  predicate IsUpper(c: char) {
    'A' <= c <= 'Z'
  }

  predicate NoUpper(s: string) {
    forall i :: 0 <= i < |s| ==> !IsUpper(s[i])
  }

  function LowerChar(c: char): (r: char)
    ensures !IsUpper(r)
    ensures !IsUpper(c) ==> r == c
  {
    if IsUpper(c) then (c as int + 32) as char else c
  }

  /** `s.lower()`: same length, every letter folded, nothing upper-case left. */
  function Lower(s: string): (r: string)
    ensures |r| == |s|
    ensures forall i :: 0 <= i < |s| ==> r[i] == LowerChar(s[i])
    ensures NoUpper(r)
  {
    seq(|s|, i requires 0 <= i < |s| => LowerChar(s[i]))
  }

  predicate StartsWith(s: string, prefix: string) {
    |prefix| <= |s| && s[..|prefix|] == prefix
  }

  /** Python's `sub in s`. */
  predicate Contains(s: string, sub: string)
    decreases |s|
  {
    StartsWith(s, sub) || (|s| > 0 && Contains(s[1..], sub))
  }

  /** A string contains every string that stands anywhere inside it. */
  lemma {:induction false} ContainsInfix(a: string, sub: string, b: string)
    ensures Contains(a + sub + b, sub)
    decreases |a|
  {
    if a == [] {
      assert a + sub + b == sub + b;
      assert (sub + b)[..|sub|] == sub;
    } else {
      ContainsInfix(a[1..], sub, b);
      assert (a + sub + b)[1..] == a[1..] + sub + b;
    }
  }

  /** Whatever a string contains, a longer string around it contains too. */
  lemma {:induction false} ContainsWithin(a: string, s: string, b: string, sub: string)
    requires Contains(s, sub)
    ensures Contains(a + s + b, sub)
    decreases |a| + |s|
  {
    if a != [] {
      ContainsWithin(a[1..], s, b, sub);
      assert (a + s + b)[1..] == a[1..] + s + b;
    } else if StartsWith(s, sub) {
      assert (s + b)[..|sub|] == s[..|sub|];
      assert a + s + b == s + b;
    } else {
      ContainsWithin([], s[1..], b, sub);
      assert (a + s + b)[1..] == [] + s[1..] + b;
    }
  }

  /** A string contains whatever stands inside a string it contains. */
  lemma ContainsTransitive(q: string, mid: string, sub: string)
    requires Contains(q, mid)
    requires exists a, b :: mid == a + sub + b
    ensures Contains(q, sub)
  {
    var a, b :| mid == a + sub + b;
    ContainsInfix(a, sub, b);
    ContainsInContained(q, mid, sub);
  }

  /** Containment is transitive. */
  lemma {:induction false} ContainsInContained(q: string, mid: string, sub: string)
    requires Contains(q, mid) && Contains(mid, sub)
    ensures Contains(q, sub)
    decreases |q|
  {
    if StartsWith(q, mid) {
      assert [] + mid + q[|mid|..] == q;
      ContainsWithin([], mid, q[|mid|..], sub);
    } else {
      ContainsInContained(q[1..], mid, sub);
    }
  }

  /** A string with no upper-case letter never contains one that has one;
      in particular no keyword with an upper-case letter is ever found in the
      result of `Lower`. */
  lemma {:induction false} NoUpperExcludes(t: string, sub: string, k: nat)
    requires NoUpper(t)
    requires k < |sub| && IsUpper(sub[k])
    ensures !Contains(t, sub)
    decreases |t|
  {
    if |sub| <= |t| {
      assert t[..|sub|][k] != sub[k];
    }
    if |t| > 0 {
      assert forall i :: 0 <= i < |t[1..]| ==> t[1..][i] == t[i + 1];
      NoUpperExcludes(t[1..], sub, k);
    }
  }

  /** The index of the first character at or after `i` that is not
      whitespace, or `|s|` when there is none. */
  function SkipSpace(s: string, i: nat): (k: nat)
    requires i <= |s|
    ensures i <= k <= |s| && (k == |s| || !IsSpace(s[k]))
    ensures forall j :: i <= j < k ==> IsSpace(s[j])
    decreases |s| - i
  {
    if i < |s| && IsSpace(s[i]) then SkipSpace(s, i + 1) else i
  }

  /** The end of `s[..j]` once its trailing whitespace is cut off. */
  function TrimEnd(s: string, j: nat): (k: nat)
    requires j <= |s|
    ensures k <= j && (k == 0 || !IsSpace(s[k - 1]))
    ensures forall m :: k <= m < j ==> IsSpace(s[m])
    decreases j
  {
    if j > 0 && IsSpace(s[j - 1]) then TrimEnd(s, j - 1) else j
  }

  /** `s.lstrip()`: the longest whitespace prefix is removed. */
  function LStrip(s: string): (r: string)
    ensures |r| <= |s| && r == s[|s| - |r|..]
    ensures AllSpace(s[..|s| - |r|])
    ensures r == [] || !IsSpace(r[0])
  {
    s[SkipSpace(s, 0)..]
  }

  /** `s.strip()`: both ends trimmed; empty exactly when `s` is all
      whitespace (see `StripTrims` for the rest of its meaning). */
  function Strip(s: string): (r: string)
    ensures r == [] <==> AllSpace(s)
  {
    var i := SkipSpace(s, 0);
    if i == |s| then [] else s[i..TrimEnd(s, |s|)]
  }

  /** What `strip` keeps is a slice of `s` between two runs of whitespace,
      and neither of its ends is whitespace. */
  lemma StripTrims(s: string)
    ensures var r := Strip(s);
            && (exists i, j :: 0 <= i <= j <= |s| && r == s[i..j] && AllSpace(s[..i]) && AllSpace(s[j..]))
            && (r == [] || (!IsSpace(r[0]) && !IsSpace(r[|r| - 1])))
  {
    var i := SkipSpace(s, 0);
    if i == |s| {
      assert Strip(s) == s[i..i] && AllSpace(s[..i]) && AllSpace(s[i..]);
    } else {
      var j := TrimEnd(s, |s|);
      assert Strip(s) == s[i..j] && AllSpace(s[..i]) && AllSpace(s[j..]);
    }
  }

  predicate IsDigit(c: char) {
    '0' <= c <= '9'
  }

  predicate AllDigits(s: string) {
    forall i :: 0 <= i < |s| ==> IsDigit(s[i])
  }

  function DigitChar(d: int): (c: char)
    requires 0 <= d < 10
    ensures IsDigit(c) && c as int - '0' as int == d
  {
    ('0' as int + d) as char
  }

  /** Python's `str(n)` for a natural number: decimal digits, no leading zero. */
  function NatToString(n: nat): (r: string)
    ensures |r| > 0 && AllDigits(r)
    ensures r[0] == '0' ==> n == 0
    decreases n
  {
    if n < 10 then [DigitChar(n)] else NatToString(n / 10) + [DigitChar(n % 10)]
  }

  /** Python's `str(i)` for an integer. */
  function IntToString(i: int): string {
    if i < 0 then "-" + NatToString(-i) else NatToString(i)
  }

  /** The number a string of decimal digits denotes. */
  function DigitsValue(s: string): nat
    requires AllDigits(s)
    decreases |s|
  {
    if s == [] then 0 else DigitsValue(s[..|s| - 1]) * 10 + (s[|s| - 1] as int - '0' as int)
  }

  /** Python's `int(s)` on an optional minus sign followed by digits. */
  function ParseInt(s: string): Option<int> {
    if |s| > 1 && s[0] == '-' && AllDigits(s[1..]) then Some(0 - DigitsValue(s[1..]))
    else if |s| > 0 && AllDigits(s) then Some(DigitsValue(s))
    else None
  }

  lemma {:induction false} NatToStringValue(n: nat)
    ensures DigitsValue(NatToString(n)) == n
    decreases n
  {
    if n >= 10 {
      NatToStringValue(n / 10);
      var s := NatToString(n);
      assert s[..|s| - 1] == NatToString(n / 10);
    }
  }

  /** `str` and `int` are inverse on every integer: the return code written
      into a feedback query is the exact number. */
  lemma IntToStringRoundTrip(i: int)
    ensures ParseInt(IntToString(i)) == Some(i)
  {
    if i < 0 {
      var s := IntToString(i);
      assert s[1..] == NatToString(-i);
      NatToStringValue(-i);
    } else {
      NatToStringValue(i);
    }
  }

  /** `sep.join(parts)`. */
  function Join(sep: string, parts: seq<string>): string
    decreases |parts|
  {
    if parts == [] then ""
    else if |parts| == 1 then parts[0]
    else parts[0] + sep + Join(sep, parts[1..])
  }

  /** Joining splits at every boundary: the parts before `k` come first, in
      order, then the separator, then the rest. */
  lemma {:induction false} JoinSplitAt(sep: string, parts: seq<string>, k: nat)
    requires 0 < k < |parts|
    ensures Join(sep, parts) == Join(sep, parts[..k]) + sep + Join(sep, parts[k..])
    decreases k
  {
    if k > 1 {
      JoinSplitAt(sep, parts[1..], k - 1);
      assert parts[1..][..k - 1] == parts[..k][1..];
      assert parts[1..][k - 1..] == parts[k..];
    }
  }

  /** Every part stands in the joined string. */
  lemma JoinContainsEach(sep: string, parts: seq<string>, i: nat)
    requires i < |parts|
    ensures Contains(Join(sep, parts), parts[i])
  {
    var before := if i == 0 then "" else Join(sep, parts[..i]) + sep;
    var after := if i == |parts| - 1 then "" else sep + Join(sep, parts[i + 1..]);
    if i > 0 {
      JoinSplitAt(sep, parts, i);
    }
    if i < |parts| - 1 {
      JoinSplitAt(sep, parts[i..], 1);
      assert parts[i..][..1] == [parts[i]];
      assert parts[i..][1..] == parts[i + 1..];
    }
    assert Join(sep, parts[i..]) == parts[i] + after;
    assert Join(sep, parts) == before + parts[i] + after;
    ContainsInfix(before, parts[i], after);
  }

  /** `s.split(c)` for a one-character separator. */
  function SplitOn(s: string, c: char): (r: seq<string>)
    ensures |r| > 0
    decreases |s|
  {
    if s == [] then [""]
    else
      var rest := SplitOn(s[1..], c);
      if s[0] == c then [""] + rest else [[s[0]] + rest[0]] + rest[1..]
  }

  lemma {:induction false} SplitOnPlain(p: string, c: char)
    requires c !in p
    ensures SplitOn(p, c) == [p]
    decreases |p|
  {
    if p != [] {
      SplitOnPlain(p[1..], c);
      assert p[0] != c;
      assert [p[0]] + p[1..] == p;
    }
  }

  lemma {:induction false} SplitOnFirst(p: string, c: char, tail: string)
    requires c !in p
    ensures SplitOn(p + [c] + tail, c) == [p] + SplitOn(tail, c)
    decreases |p|
  {
    if p == [] {
      assert p + [c] + tail == [c] + tail;
      assert ([c] + tail)[1..] == tail;
    } else {
      SplitOnFirst(p[1..], c, tail);
      assert (p + [c] + tail)[1..] == p[1..] + [c] + tail;
      assert (p + [c] + tail)[0] == p[0] != c;
      assert [p[0]] + p[1..] == p;
    }
  }

  /** Joining one-line parts with a line break and splitting the result at
      line breaks gives the parts back. */
  lemma {:induction false} SplitJoinRoundTrip(parts: seq<string>, c: char)
    requires |parts| > 0
    requires forall i :: 0 <= i < |parts| ==> c !in parts[i]
    ensures SplitOn(Join([c], parts), c) == parts
    decreases |parts|
  {
    if |parts| == 1 {
      SplitOnPlain(parts[0], c);
    } else {
      SplitJoinRoundTrip(parts[1..], c);
      SplitOnFirst(parts[0], c, Join([c], parts[1..]));
    }
  }
}
