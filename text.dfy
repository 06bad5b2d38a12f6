/**
 * The JavaScript string operations the source relies on: decimal rendering of numbers
 * (template literals), zero padding (moment's format tokens), `Array.prototype.join`,
 * `String.prototype.indexOf` and the relational `<` on strings.
 */
module Text {

  predicate IsDigit(c: char) {
    '0' <= c <= '9'
  }

  function Digit(d: nat): (c: char)
    requires d < 10
    ensures IsDigit(c)
  {
    ('0' as int + d) as char
  }

  /** Decimal rendering of a natural number, as `${n}` prints it. */
  function NatToString(n: nat): (s: string)
    ensures |s| >= 1
    ensures forall i :: 0 <= i < |s| ==> IsDigit(s[i])
    decreases n
  {
    if n < 10 then [Digit(n)] else NatToString(n / 10) + [Digit(n % 10)]
  }

  /** Decimal rendering of an integer, with a leading `-` when negative. */
  function IntToString(i: int): (s: string)
    ensures |s| >= 1
    ensures i < 0 <==> s[0] == '-'
  {
    if i < 0 then "-" + NatToString(-i) else NatToString(i)
  }

  /** A number rendered with at least `width` digits, zero-filled on the left (moment's `YYYY`, `MM`, ...). */
  function Pad(n: nat, width: nat): (s: string)
    ensures |s| >= width
  {
    var digits := NatToString(n);
    if |digits| >= width then digits else Zeros(width - |digits|) + digits
  }

  function Zeros(k: nat): (s: string)
    ensures |s| == k
  {
    if k == 0 then "" else "0" + Zeros(k - 1)
  }

  /** What a plain object without its own `toString` prints as, in a template literal or under `<`. */
  const ObjectText: string := "[object Object]"

  /** `Array.prototype.join(sep)`. */
  function Join(parts: seq<string>, sep: string): string
  {
    if |parts| == 0 then ""
    else if |parts| == 1 then parts[0]
    else parts[0] + sep + Join(parts[1..], sep)
  }

  /** JavaScript's `<` on two strings: lexicographic order on code units. */
  predicate LexLess(a: string, b: string)
    decreases |a|
  {
    if |b| == 0 then false
    else if |a| == 0 then true
    else a[0] < b[0] || (a[0] == b[0] && LexLess(a[1..], b[1..]))
  }

  lemma {:induction false} LexLessIrreflexive(a: string)
    ensures !LexLess(a, a)
    decreases |a|
  {
    if |a| > 0 {
      LexLessIrreflexive(a[1..]);
    }
  }

  /** Two strings that share a prefix compare as their remainders do. */
  lemma {:induction false} LexLessCommonPrefix(p: string, a: string, b: string)
    ensures LexLess(p + a, p + b) <==> LexLess(a, b)
    decreases |p|
  {
    if |p| > 0 {
      assert (p + a)[1..] == p[1..] + a;
      assert (p + b)[1..] == p[1..] + b;
      LexLessCommonPrefix(p[1..], a, b);
    } else {
      assert p + a == a && p + b == b;
    }
  }

  /** The first differing character decides. */
  lemma LexLessFirstChar(a: string, b: string)
    requires |a| > 0 && |b| > 0 && a[0] < b[0]
    ensures LexLess(a, b) && !LexLess(b, a)
  {
  }

  /** A natural number of ten or more has at least two digits. */
  lemma {:induction false} NatToStringLong(n: nat)
    requires n >= 10
    ensures |NatToString(n)| >= 2
  {
    assert |NatToString(n / 10)| >= 1;
  }

  /** `<` on strings is asymmetric. */
  lemma {:induction false} LexLessAsymmetric(a: string, b: string)
    ensures LexLess(a, b) ==> !LexLess(b, a)
    decreases |a|
  {
    if |a| > 0 && |b| > 0 && a[0] == b[0] {
      LexLessAsymmetric(a[1..], b[1..]);
    }
  }

  /** A number below 100 padded to two places is its tens digit then its units digit. */
  lemma PadTwo(n: nat)
    requires n < 100
    ensures Pad(n, 2) == [Digit(n / 10), Digit(n % 10)]
  {
    if n >= 10 {
      assert NatToString(n) == NatToString(n / 10) + [Digit(n % 10)];
    } else {
      assert Zeros(1) == "0";
    }
  }

  /** A four-digit number padded to four places is its two high digits then its two low ones. */
  lemma PadFourSplit(n: nat)
    requires 1000 <= n < 10000
    ensures Pad(n, 4) == Pad(n / 100, 2) + Pad(n % 100, 2)
  {
    var hi, lo := n / 100, n % 100;
    assert n / 10 / 10 == hi && (n / 10) % 10 == lo / 10 && n % 10 == lo % 10;
    assert NatToString(hi) == [Digit(hi / 10), Digit(hi % 10)] by {
      assert NatToString(hi) == NatToString(hi / 10) + [Digit(hi % 10)];
    }
    assert NatToString(n / 10) == NatToString(hi) + [Digit(lo / 10)];
    assert NatToString(n) == NatToString(n / 10) + [Digit(lo % 10)];
    PadTwo(hi);
    PadTwo(lo);
  }

  /** Of two strings of one length, the lesser stays lesser whatever is appended to each. */
  lemma {:induction false} LexLessSameLengthExtend(a: string, b: string, x: string, y: string)
    requires |a| == |b| && LexLess(a, b)
    ensures LexLess(a + x, b + y)
    decreases |a|
  {
    if a[0] < b[0] {
      LexLessFirstChar(a + x, b + y);
    } else {
      assert (a + x)[1..] == a[1..] + x;
      assert (b + y)[1..] == b[1..] + y;
      LexLessSameLengthExtend(a[1..], b[1..], x, y);
    }
  }

  /** Two-digit padded numbers compare as the numbers do. */
  lemma LexLessPadTwo(a: nat, b: nat)
    requires a < b < 100
    ensures |Pad(a, 2)| == 2 && |Pad(b, 2)| == 2 && LexLess(Pad(a, 2), Pad(b, 2))
  {
    PadTwo(a);
    PadTwo(b);
    if a / 10 == b / 10 {
      LexLessFirstChar(Pad(a, 2)[1..], Pad(b, 2)[1..]);
    }
  }

  /** Four-digit padded numbers compare as the numbers do. */
  lemma LexLessPadFour(a: nat, b: nat)
    requires 1000 <= a < b < 10000
    ensures |Pad(a, 4)| == 4 && |Pad(b, 4)| == 4 && LexLess(Pad(a, 4), Pad(b, 4))
  {
    PadFourSplit(a);
    PadFourSplit(b);
    var ha, la, hb, lb := a / 100, a % 100, b / 100, b % 100;
    PadTwo(ha);
    PadTwo(hb);
    PadTwo(la);
    PadTwo(lb);
    if ha < hb {
      LexLessPadTwo(ha, hb);
      LexLessSameLengthExtend(Pad(ha, 2), Pad(hb, 2), Pad(la, 2), Pad(lb, 2));
    } else {
      assert ha == hb && la < lb;
      LexLessPadTwo(la, lb);
      LexLessCommonPrefix(Pad(ha, 2), Pad(la, 2), Pad(lb, 2));
    }
  }
}
