/** String helpers shared by the server and the client: decimal rendering of integers,
    joining with a separator, searching for a character, prefixes and left padding. */
module Text {
  import opened Wrappers

  predicate IsDigit(c: char) {
    '0' <= c <= '9'
  }

  predicate AllDigits(s: string) {
    forall i :: 0 <= i < |s| ==> IsDigit(s[i])
  }

  function DigitChar(d: nat): (c: char)
    requires d < 10
    ensures IsDigit(c)
  {
    (d + '0' as int) as char
  }

  function DigitValue(c: char): nat
    requires IsDigit(c)
  {
    c as int - '0' as int
  }

  /** The decimal text of a non-negative integer, as JavaScript writes an integral number:
      digits only, no leading zero. */
  function NatToString(n: nat): (s: string)
    ensures 1 <= |s| && AllDigits(s)
    ensures s[0] == '0' ==> n == 0
    ensures n < 10 <==> |s| == 1
    decreases n
  {
    if n < 10 then [DigitChar(n)] else NatToString(n / 10) + [DigitChar(n % 10)]
  }

  /** The number a string of decimal digits denotes. */
  function DigitsValue(s: string): nat
    requires AllDigits(s)
  {
    if s == [] then 0 else 10 * DigitsValue(s[..|s| - 1]) + DigitValue(s[|s| - 1])
  }

  /** Reading the decimal text back gives the number: NatToString loses nothing. */
  lemma {:induction false} NatToStringRoundTrip(n: nat)
    ensures DigitsValue(NatToString(n)) == n
  {
    var s := NatToString(n);
    if n < 10 {
      assert s[..|s| - 1] == [];
    } else {
      NatToStringRoundTrip(n / 10);
      assert s[..|s| - 1] == NatToString(n / 10);
    }
  }

  predicate StartsWith(s: string, prefix: string) {
    |prefix| <= |s| && s[..|prefix|] == prefix
  }

  lemma PrefixOfConcat(prefix: string, a: string, b: string)
    requires StartsWith(a, prefix)
    ensures StartsWith(a + b, prefix)
  {
    assert (a + b)[..|prefix|] == a[..|prefix|];
  }

  /** `s.padStart(width, fill)`: `fill` repeated on the left until the text is `width` long. */
  function PadStart(s: string, width: nat, fill: char): (r: string)
    ensures |r| == if |s| < width then width else |s|
    ensures r[|r| - |s|..] == s
    ensures forall i :: 0 <= i < |r| - |s| ==> r[i] == fill
  {
    if |s| >= width then s else seq(width - |s|, _ => fill) + s
  }

  /** `xs.join(sep)`. */
  function Join(sep: string, xs: seq<string>): string {
    if |xs| == 0 then "" else if |xs| == 1 then xs[0] else xs[0] + sep + Join(sep, xs[1..])
  }

  /** Where the i-th element starts in `Join(sep, xs)`. */
  function Offset(sep: string, xs: seq<string>, i: nat): nat
    requires i <= |xs|
    decreases i
  {
    if i == 0 then 0 else |xs[0]| + |sep| + Offset(sep, xs[1..], i - 1)
  }

  /** Every element occurs in the joined text at its offset. */
  lemma {:induction false} JoinAt(sep: string, xs: seq<string>, i: nat)
    requires i < |xs|
    ensures Offset(sep, xs, i) + |xs[i]| <= |Join(sep, xs)|
    ensures Join(sep, xs)[Offset(sep, xs, i)..Offset(sep, xs, i) + |xs[i]|] == xs[i]
    decreases i
  {
    if |xs| == 1 {
    } else if i == 0 {
      var j := Join(sep, xs);
      assert j == xs[0] + (sep + Join(sep, xs[1..]));
      assert j[..|xs[0]|] == xs[0];
    } else {
      JoinAt(sep, xs[1..], i - 1);
      var rest := Join(sep, xs[1..]);
      var k := |xs[0]| + |sep|;
      assert Join(sep, xs) == (xs[0] + sep) + rest;
      assert xs[1..][i - 1] == xs[i];
      var o := Offset(sep, xs[1..], i - 1);
      assert Join(sep, xs)[k + o..k + o + |xs[i]|] == rest[o..o + |xs[i]|];
    }
  }

  /** Right after every element but the last comes the separator. */
  lemma {:induction false} JoinSeparatorAt(sep: string, xs: seq<string>, i: nat)
    requires i + 1 < |xs|
    ensures Offset(sep, xs, i) + |xs[i]| + |sep| <= |Join(sep, xs)|
    ensures Join(sep, xs)[Offset(sep, xs, i) + |xs[i]|..Offset(sep, xs, i) + |xs[i]| + |sep|] == sep
    decreases i
  {
    var rest := Join(sep, xs[1..]);
    var k := |xs[0]| + |sep|;
    assert Join(sep, xs) == (xs[0] + sep) + rest;
    if i == 0 {
      assert Join(sep, xs)[|xs[0]|..k] == sep;
    } else {
      JoinSeparatorAt(sep, xs[1..], i - 1);
      assert xs[1..][i - 1] == xs[i];
      var e := Offset(sep, xs[1..], i - 1) + |xs[i]|;
      assert Join(sep, xs)[k + e..k + e + |sep|] == rest[e..e + |sep|];
    }
  }

  /** Elements occur in their order, with a separator between each and the next. */
  lemma {:induction false} OffsetsIncrease(sep: string, xs: seq<string>, i: nat, j: nat)
    requires i < j < |xs|
    ensures Offset(sep, xs, i) + |xs[i]| + |sep| <= Offset(sep, xs, j)
    decreases i
  {
    if i > 0 {
      OffsetsIncrease(sep, xs[1..], i - 1, j - 1);
    }
  }

  /** The first position of `c` in `s`, if any (`s.indexOf(c)` when it is not -1). */
  function FirstIndexOf(s: string, c: char): (r: Option<nat>)
    ensures r.Some? ==> r.value < |s| && s[r.value] == c
    ensures r.Some? ==> forall k :: 0 <= k < r.value ==> s[k] != c
    ensures r.None? ==> forall k :: 0 <= k < |s| ==> s[k] != c
  {
    if |s| == 0 then None
    else if s[0] == c then Some(0)
    else match FirstIndexOf(s[1..], c)
      case Some(k) => Some(k + 1)
      case None => None
  }

  /** The last position of `c` in `s`, if any (`s.lastIndexOf(c)` when it is not -1). */
  function LastIndexOf(s: string, c: char): (r: Option<nat>)
    ensures r.Some? ==> r.value < |s| && s[r.value] == c
    ensures r.Some? ==> forall k :: r.value < k < |s| ==> s[k] != c
    ensures r.None? ==> forall k :: 0 <= k < |s| ==> s[k] != c
  {
    if |s| == 0 then None
    else if s[|s| - 1] == c then Some(|s| - 1)
    else LastIndexOf(s[..|s| - 1], c)
  }
}
