/** The string conversions the Python code relies on: `str(n)` and `int(s)` on
    non-negative integers, `f"{n:04d}"`, `s.split(c)[-1]`, `sep.join(parts)` and
    the f-string rendering of a possibly-`None` value. */
module Text {
  import opened Wrappers

  predicate IsDigit(c: char) {
    '0' <= c <= '9'
  }

  predicate AllDigits(s: string) {
    forall i :: 0 <= i < |s| ==> IsDigit(s[i])
  }

  function DigitChar(d: nat): (c: char)
    requires d < 10
    ensures IsDigit(c)
  {
    (48 + d) as char
  }

  function DigitValue(c: char): (d: nat)
    requires IsDigit(c)
    ensures d < 10
  {
    c as int - 48
  }

  /** `str(n)` for a non-negative integer: decimal digits, no leading zeros. */
  function NatToString(n: nat): (s: string)
    ensures 1 <= |s| && AllDigits(s)
    ensures n >= 10 <==> |s| > 1
    decreases n
  {
    if n < 10 then [DigitChar(n)] else NatToString(n / 10) + [DigitChar(n % 10)]
  }

  /** The value of a string of decimal digits (leading zeros allowed). */
  function DigitsValue(s: string): nat
    requires AllDigits(s)
  {
    PrefixValue(s, |s|)
  }

  /** The value of the first `k` digits of `s`. */
  function PrefixValue(s: string, k: nat): nat
    requires k <= |s| && AllDigits(s)
    decreases k
  {
    if k == 0 then 0 else PrefixValue(s, k - 1) * 10 + DigitValue(s[k - 1])
  }

  /** `int(s)` restricted to plain decimal digits; `None` stands for the
      `ValueError` Python raises on anything else. */
  function ParseNat(s: string): (r: Option<nat>)
    ensures r.Some? <==> s != [] && AllDigits(s)
  {
    if s != [] && AllDigits(s) then Some(DigitsValue(s)) else None
  }

  /** The value of a prefix depends on that prefix only. */
  lemma {:induction false} PrefixValueSame(s: string, t: string, k: nat)
    requires k <= |s| && k <= |t| && AllDigits(s) && AllDigits(t)
    requires forall i :: 0 <= i < k ==> s[i] == t[i]
    ensures PrefixValue(s, k) == PrefixValue(t, k)
    decreases k
  {
    if k > 0 {
      PrefixValueSame(s, t, k - 1);
    }
  }

  lemma {:induction false} DigitsValueOfNatToString(n: nat)
    ensures DigitsValue(NatToString(n)) == n
    decreases n
  {
    if n >= 10 {
      var s := NatToString(n);
      var t := NatToString(n / 10);
      assert s == t + [DigitChar(n % 10)];
      PrefixValueSame(s, t, |t|);
      DigitsValueOfNatToString(n / 10);
    }
  }

  /** Parsing what `str(n)` printed gives back `n`. */
  lemma ParseNatToString(n: nat)
    ensures ParseNat(NatToString(n)) == Some(n)
  {
    DigitsValueOfNatToString(n);
  }

  /** `str` is injective on non-negative integers. */
  lemma NatToStringInjective(a: nat, b: nat)
    requires NatToString(a) == NatToString(b)
    ensures a == b
  {
    ParseNatToString(a);
    ParseNatToString(b);
  }

  /** Left padding with `'0'` up to `width` characters, as `f"{n:0{width}d}"`
      does for a non-negative `n`. */
  function ZeroPad(s: string, width: nat): (r: string)
    ensures |r| == if |s| >= width then |s| else width
    ensures r[|r| - |s|..] == s
    ensures forall i :: 0 <= i < |r| - |s| ==> r[i] == '0'
    ensures AllDigits(s) ==> AllDigits(r)
    decreases width - |s|
  {
    if |s| >= width then s else ZeroPad("0" + s, width)
  }

  lemma DigitsValueZeros(z: string, s: string)
    requires forall i :: 0 <= i < |z| ==> z[i] == '0'
    requires AllDigits(s)
    ensures AllDigits(z + s) && DigitsValue(z + s) == DigitsValue(s)
  {
    assert AllDigits(z + s);
    ValueAfterZeros(z, s, |s|);
  }

  /** Behind a run of zeros, the first `k` digits of `s` keep their value. */
  lemma {:induction false} ValueAfterZeros(z: string, s: string, k: nat)
    requires forall i :: 0 <= i < |z| ==> z[i] == '0'
    requires AllDigits(s) && AllDigits(z + s) && k <= |s|
    ensures PrefixValue(z + s, |z| + k) == PrefixValue(s, k)
    decreases k
  {
    if k == 0 {
      ZerosValue(z + s, |z|);
    } else {
      ValueAfterZeros(z, s, k - 1);
      assert (z + s)[|z| + k - 1] == s[k - 1];
    }
  }

  lemma {:induction false} ZerosValue(s: string, k: nat)
    requires AllDigits(s) && k <= |s|
    requires forall i :: 0 <= i < k ==> s[i] == '0'
    ensures PrefixValue(s, k) == 0
    decreases k
  {
    if k > 0 {
      ZerosValue(s, k - 1);
    }
  }

  /** Parsing a zero-padded number gives back the number. */
  lemma ParseZeroPadded(n: nat, width: nat)
    ensures ParseNat(ZeroPad(NatToString(n), width)) == Some(n)
  {
    var s := NatToString(n);
    var r := ZeroPad(s, width);
    var z := r[..|r| - |s|];
    assert r == z + s by {
      assert r[|r| - |s|..] == s;
    }
    DigitsValueZeros(z, s);
    DigitsValueOfNatToString(n);
  }

  /** `s.split(sep)[-1]`: what follows the last `sep`, or all of `s`. */
  function LastSegment(s: string, sep: char): (r: string)
    ensures sep !in r
    ensures |r| <= |s| && r == s[|s| - |r|..]
    ensures |r| < |s| ==> s[|s| - |r| - 1] == sep
  {
    if s == [] then []
    else if s[|s| - 1] == sep then []
    else LastSegment(s[..|s| - 1], sep) + [s[|s| - 1]]
  }

  /** Whatever precedes a separator, the last segment is what follows it. */
  lemma {:induction false} LastSegmentAfter(p: string, sep: char, t: string)
    requires sep !in t
    ensures LastSegment(p + [sep] + t, sep) == t
    decreases |t|
  {
    var s := p + [sep] + t;
    if t == [] {
    } else {
      assert s[..|s| - 1] == p + [sep] + t[..|t| - 1];
      LastSegmentAfter(p, sep, t[..|t| - 1]);
    }
  }

  /** `sep.join(parts)`. */
  function Join(parts: seq<string>, sep: string): (r: string)
    ensures parts == [] ==> r == []
    ensures |parts| == 1 ==> r == parts[0]
  {
    if parts == [] then []
    else if |parts| == 1 then parts[0]
    else parts[0] + sep + Join(parts[1..], sep)
  }

  /** Joining one more part appends the separator and that part. */
  lemma {:induction false} JoinSnoc(parts: seq<string>, p: string, sep: string)
    requires |parts| >= 1
    ensures Join(parts + [p], sep) == Join(parts, sep) + sep + p
    decreases |parts|
  {
    if |parts| > 1 {
      assert (parts + [p])[1..] == parts[1..] + [p];
      JoinSnoc(parts[1..], p, sep);
    }
  }

  /** The total length of the parts. */
  function PartsLength(parts: seq<string>): nat {
    if parts == [] then 0 else |parts[0]| + PartsLength(parts[1..])
  }

  /** The joined string holds every part and one separator between each two
      neighbours. */
  lemma {:induction false} JoinLength(parts: seq<string>, sep: string)
    requires |parts| >= 1
    ensures |Join(parts, sep)| == PartsLength(parts) + (|parts| - 1) * |sep|
    decreases |parts|
  {
    if |parts| > 1 {
      JoinLength(parts[1..], sep);
    }
  }

  /** How an f-string renders a value that may be `None`. */
  function Show(v: Option<string>): string {
    match v
    case Some(s) => s
    case None => "None"
  }
}
