/** The few Python string operations the service relies on: `str.endswith`,
    `str()` of a non-negative integer, and `str.join`. */
module Strings {

  /** Python's `s.endswith(suffix)`: case-sensitive, on code points. */
  predicate EndsWith(s: string, suffix: string)
  {
    |suffix| <= |s| && s[|s| - |suffix|..] == suffix
  }

  predicate IsDigit(c: char)
  {
    '0' <= c <= '9'
  }

  predicate AllDigits(s: string)
  {
    forall i :: 0 <= i < |s| ==> IsDigit(s[i])
  }

  function DigitChar(d: nat): (c: char)
    requires d < 10
    ensures IsDigit(c) && c as int - '0' as int == d
  {
    (d + '0' as int) as char
  }

  /** Python's `str(n)` for n >= 0: decimal digits, most significant first,
      no sign and no leading zero. */
  function NatToString(n: nat): (s: string)
    ensures 1 <= |s|
    ensures AllDigits(s)
    ensures s[0] == '0' ==> n == 0
    decreases n
  {
    if n < 10 then [DigitChar(n)] else NatToString(n / 10) + [DigitChar(n % 10)]
  }

  /** Reads a string of decimal digits back as a number. */
  function ParseDecimal(s: string): nat
    requires AllDigits(s)
  {
    if |s| == 0 then 0
    else 10 * ParseDecimal(s[..|s| - 1]) + (s[|s| - 1] as int - '0' as int)
  }

  /** Decimal rendering round-trips through parsing. */
  lemma {:induction false} ParseNatToString(n: nat)
    ensures ParseDecimal(NatToString(n)) == n
    decreases n
  {
    var s := NatToString(n);
    if n >= 10 {
      ParseNatToString(n / 10);
      assert s[..|s| - 1] == NatToString(n / 10);
    }
  }

  /** Distinct numbers render as distinct strings. */
  lemma NatToStringInjective(a: nat, b: nat)
    ensures NatToString(a) == NatToString(b) <==> a == b
  {
    if NatToString(a) == NatToString(b) {
      ParseNatToString(a);
      ParseNatToString(b);
    }
  }

  /** The length of the longest run of digits at the end of `s`. */
  function TrailingDigits(s: string): nat
  {
    if |s| == 0 || !IsDigit(s[|s| - 1]) then 0 else 1 + TrailingDigits(s[..|s| - 1])
  }

  /** A digit string written after a non-digit is exactly the trailing run
      of digits: the non-digit marks where the number starts. */
  lemma {:induction false} TrailingDigitsAfterMark(p: string, a: string)
    requires |p| > 0 && !IsDigit(p[|p| - 1])
    requires AllDigits(a)
    ensures TrailingDigits(p + a) == |a|
    decreases |a|
  {
    if |a| == 0 {
      assert p + a == p;
    } else {
      assert (p + a)[..|p + a| - 1] == p + a[..|a| - 1];
      TrailingDigitsAfterMark(p, a[..|a| - 1]);
    }
  }

  /** Python's `sep.join(parts)`. */
  function Join(sep: string, parts: seq<string>): string
  {
    if |parts| == 0 then ""
    else if |parts| == 1 then parts[0]
    else parts[0] + sep + Join(sep, parts[1..])
  }

  /** Where part k starts inside `Join(sep, parts)`: every earlier part
      followed by one separator. */
  function Offset(sep: string, parts: seq<string>, k: nat): nat
    requires k <= |parts|
  {
    if k == 0 then 0 else |parts[0]| + |sep| + Offset(sep, parts[1..], k - 1)
  }

  lemma {:induction false} JoinLength(sep: string, parts: seq<string>)
    ensures |parts| == 0 ==> Join(sep, parts) == ""
    ensures |parts| > 0 ==> |Join(sep, parts)| + |sep| == Offset(sep, parts, |parts|)
  {
    if |parts| > 1 {
      JoinLength(sep, parts[1..]);
    }
  }

  lemma {:induction false} JoinPartAt(sep: string, parts: seq<string>, k: nat)
    requires k < |parts|
    ensures Offset(sep, parts, k) + |parts[k]| <= |Join(sep, parts)|
    ensures Join(sep, parts)[Offset(sep, parts, k)..Offset(sep, parts, k) + |parts[k]|] == parts[k]
    decreases k
  {
    if k > 0 {
      var tail := parts[1..];
      var h := |parts[0]| + |sep|;
      var o := Offset(sep, tail, k - 1);
      JoinPartAt(sep, tail, k - 1);
      assert Join(sep, parts) == parts[0] + sep + Join(sep, tail);
      assert parts[k] == tail[k - 1];
      assert Join(sep, parts)[h + o..h + o + |parts[k]|] == Join(sep, tail)[o..o + |parts[k]|];
    }
  }

  lemma {:induction false} JoinSeparatorAfter(sep: string, parts: seq<string>, k: nat)
    requires k + 1 < |parts|
    ensures Offset(sep, parts, k) + |parts[k]| + |sep| <= |Join(sep, parts)|
    ensures Join(sep, parts)[Offset(sep, parts, k) + |parts[k]|..Offset(sep, parts, k) + |parts[k]| + |sep|] == sep
    decreases k
  {
    var tail := parts[1..];
    assert Join(sep, parts) == parts[0] + sep + Join(sep, tail);
    if k > 0 {
      var h := |parts[0]| + |sep|;
      var e := Offset(sep, tail, k - 1) + |parts[k]|;
      JoinSeparatorAfter(sep, tail, k - 1);
      assert parts[k] == tail[k - 1];
      assert Join(sep, parts)[h + e..h + e + |sep|] == Join(sep, tail)[e..e + |sep|];
    }
  }

  /** The joined string is exactly the parts in order with one separator
      between neighbours and nothing else: its length, each part at its
      offset, and the separator right after every part but the last. */
  lemma JoinLayout(sep: string, parts: seq<string>)
    ensures |parts| == 0 ==> Join(sep, parts) == ""
    ensures |parts| > 0 ==> |Join(sep, parts)| + |sep| == Offset(sep, parts, |parts|)
    ensures forall k :: 0 <= k < |parts| ==>
              && Offset(sep, parts, k) + |parts[k]| <= |Join(sep, parts)|
              && Join(sep, parts)[Offset(sep, parts, k)..Offset(sep, parts, k) + |parts[k]|] == parts[k]
    ensures forall k :: 0 <= k < |parts| - 1 ==>
              && Offset(sep, parts, k) + |parts[k]| + |sep| <= |Join(sep, parts)|
              && Join(sep, parts)[Offset(sep, parts, k) + |parts[k]|..Offset(sep, parts, k) + |parts[k]| + |sep|] == sep
  {
    JoinLength(sep, parts);
    forall k | 0 <= k < |parts|
      ensures Offset(sep, parts, k) + |parts[k]| <= |Join(sep, parts)|
      ensures Join(sep, parts)[Offset(sep, parts, k)..Offset(sep, parts, k) + |parts[k]|] == parts[k]
    {
      JoinPartAt(sep, parts, k);
    }
    forall k | 0 <= k < |parts| - 1
      ensures Offset(sep, parts, k) + |parts[k]| + |sep| <= |Join(sep, parts)|
      ensures Join(sep, parts)[Offset(sep, parts, k) + |parts[k]|..Offset(sep, parts, k) + |parts[k]| + |sep|] == sep
    {
      JoinSeparatorAfter(sep, parts, k);
    }
  }
}
