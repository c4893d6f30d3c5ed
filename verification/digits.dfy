/**
 Numbers written in a base of at most 16: what `toString`, `padStart` with zeros and `parseInt` do to
 the decimals of segment names and byte ranges and to the hexadecimal fingerprint.
 */
module Digits {

  type Base = b: nat | 2 <= b <= 16 witness 10

  function DigitChar(d: nat): char
    requires d < 16
  {
    if d < 10 then '0' + d as char else 'A' + (d - 10) as char
  }

  predicate IsDigit(c: char, base: Base) {
    ('0' <= c <= '9' && (c - '0') as int < base) || ('A' <= c <= 'F' && (c - 'A') as int + 10 < base)
  }

  predicate AllDigits(s: string, base: Base) {
    forall i :: 0 <= i < |s| ==> IsDigit(s[i], base)
  }

  function ValueOf(c: char): (d: nat)
    ensures forall base: Base :: IsDigit(c, base) ==> d < base && DigitChar(d) == c
  {
    if '0' <= c <= '9' then (c - '0') as nat else if 'A' <= c <= 'F' then (c - 'A') as nat + 10 else 0
  }

  lemma ValueOfDigit(d: nat, base: Base)
    requires d < base
    ensures ValueOf(DigitChar(d)) == d && IsDigit(DigitChar(d), base)
  {
  }

  function Join(m: nat, d: nat, base: Base): nat {
    m * base + d
  }

  /** The number a digit string stands for; the empty string stands for 0. */
  function Number(s: string, base: Base): nat {
    if s == [] then 0 else Join(Number(s[..|s| - 1], base), ValueOf(s[|s| - 1]), base)
  }

  /** The shortest digit string for `n`; 0 is written "0". */
  function Print(n: nat, base: Base): (s: string)
    ensures |s| > 0
  {
    if n < base then [DigitChar(n)] else Print(n / base, base) + [DigitChar(n % base)]
  }

  /** `padStart(width, "0")` */
  function PadStart(s: string, width: nat): (r: string)
    ensures |r| == if |s| < width then width else |s|
    decreases width - |s|
  {
    if |s| >= width then s else PadStart("0" + s, width)
  }

  function Times(p: nat, base: Base): nat {
    p * base
  }

  function Power(base: Base, n: nat): nat {
    if n == 0 then 1 else Times(Power(base, n - 1), base)
  }

  lemma NumberSnoc(s: string, c: char, base: Base)
    ensures Number(s + [c], base) == Join(Number(s, base), ValueOf(c), base)
  {
    assert (s + [c])[..|s|] == s;
  }

  lemma NumberOne(c: char, base: Base)
    ensures Number([c], base) == ValueOf(c)
  {
    assert [c][..0] == [];
  }

  lemma JoinDivide(n: nat, base: Base)
    ensures n % base < base && Join(n / base, n % base, base) == n
  {
  }

  lemma {:induction false} PrintDigits(n: nat, base: Base)
    ensures AllDigits(Print(n, base), base)
  {
    if n < base {
      ValueOfDigit(n, base);
    } else {
      PrintDigits(n / base, base);
      ValueOfDigit(n % base, base);
    }
  }

  lemma {:induction false} PrintNumber(n: nat, base: Base)
    ensures Number(Print(n, base), base) == n
  {
    if n < base {
      ValueOfDigit(n, base);
      NumberOne(DigitChar(n), base);
    } else {
      PrintNumber(n / base, base);
      JoinDivide(n, base);
      ValueOfDigit(n % base, base);
      NumberSnoc(Print(n / base, base), DigitChar(n % base), base);
    }
  }

  lemma {:induction false} LeadingZero(s: string, base: Base)
    ensures Number("0" + s, base) == Number(s, base)
  {
    if s == [] {
      NumberOne('0', base);
      assert "0" + s == ['0'];
    } else {
      LeadingZero(s[..|s| - 1], base);
      assert "0" + s == ("0" + s[..|s| - 1]) + [s[|s| - 1]];
      NumberSnoc("0" + s[..|s| - 1], s[|s| - 1], base);
    }
  }

  /** Padding keeps the number and the digits. */
  lemma {:induction false} PadNumber(s: string, width: nat, base: Base)
    requires AllDigits(s, base)
    ensures Number(PadStart(s, width), base) == Number(s, base)
    ensures AllDigits(PadStart(s, width), base)
    decreases width - |s|
  {
    if |s| < width {
      LeadingZero(s, base);
      PadNumber("0" + s, width, base);
    }
  }

  lemma DivideBelow(n: nat, base: Base, p: nat)
    ensures n / base < p <==> n < Times(p, base)
  {
    var q := n / base;
    JoinDivide(n, base);
    if q < p {
      assert (q + 1) * base <= p * base;
    } else {
      assert q * base >= p * base;
    }
  }

  lemma {:induction false} PowerAbove(base: Base, n: nat)
    ensures Power(base, n) >= 1 && Power(base, n + 1) >= base
  {
    if n > 0 { PowerAbove(base, n - 1); }
    assert Power(base, n) * base >= 1 * base;
  }

  lemma PrintLength(n: nat, q: nat, base: Base)
    requires n >= base && q == n / base
    ensures |Print(n, base)| == |Print(q, base)| + 1 && q > 0
  {
    JoinDivide(n, base);
  }

  lemma PowerOne(base: Base)
    ensures Power(base, 1) == base
  {
    assert Power(base, 0) == 1;
  }

  lemma FitsStep(n: nat, q: nat, lengthN: nat, lengthQ: nat, p: nat, width: nat, base: Base)
    requires q == n / base && lengthN == lengthQ + 1
    requires lengthQ <= width - 1 <==> q < p
    ensures lengthN <= width <==> n < Times(p, base)
  {
    DivideBelow(n, base, p);
  }

  /** A number below base^width prints in at most `width` digits, and only such a number does. */
  lemma {:induction false} PrintFits(n: nat, width: nat, base: Base)
    requires width > 0
    ensures |Print(n, base)| <= width <==> n < Power(base, width)
    decreases width
  {
    if n < base {
      PowerAbove(base, width - 1);
      assert |Print(n, base)| == 1;
    } else {
      PrintLength(n, n / base, base);
      if width == 1 {
        PowerOne(base);
      } else {
        PrintFits(n / base, width - 1, base);
        FitsStep(n, n / base, |Print(n, base)|, |Print(n / base, base)|, Power(base, width - 1), width, base);
      }
    }
  }

  lemma {:induction false} PadConcat(s: string, t: string, width: nat)
    requires width >= |t|
    ensures PadStart(s + t, width) == PadStart(s, width - |t|) + t
    decreases width - |s + t|
  {
    if |s + t| < width {
      assert "0" + (s + t) == ("0" + s) + t;
      PadConcat("0" + s, t, width);
    }
  }

  lemma SmallMultiple(k: int, base: Base)
    requires k * base < base && (0 - k) * base < base
    ensures k == 0
  {
  }

  lemma Unique(m: nat, d: nat, q: nat, r: nat, base: Base)
    requires d < base && r < base && m * base + d == q * base + r
    ensures m == q && d == r
  {
    assert (q - m) * base == d - r;
    SmallMultiple(q - m, base);
  }

  lemma JoinSplit(m: nat, d: nat, base: Base)
    requires d < base
    ensures Join(m, d, base) / base == m && Join(m, d, base) % base == d
  {
    var n := Join(m, d, base);
    Unique(m, d, n / base, n % base, base);
  }

  lemma PrintJoin(m: nat, d: nat, base: Base)
    requires m > 0 && d < base
    ensures Print(Join(m, d, base), base) == Print(m, base) + [DigitChar(d)]
  {
    JoinSplit(m, d, base);
    assert Join(m, d, base) >= base by { assert m * base >= base; }
  }

  lemma PadZero(width: nat)
    requires width > 0
    ensures PadStart("", width) == PadStart("0", width)
  {
    assert "0" + "" == "0";
  }

  /** A digit string is recovered from its number and its length. */
  lemma {:induction false} PadPrint(s: string, base: Base)
    requires |s| > 0 && AllDigits(s, base)
    ensures PadStart(Print(Number(s, base), base), |s|) == s
  {
    var front, last := s[..|s| - 1], s[|s| - 1];
    var m, d := Number(front, base), ValueOf(last);
    assert IsDigit(last, base) && s == front + [last];
    if m > 0 {
      PrintJoin(m, d, base);
      PadConcat(Print(m, base), [last], |s|);
      if front != [] { PadPrint(front, base); }
    } else {
      assert Print(Join(m, d, base), base) == "" + [last];
      PadConcat("", [last], |s|);
      if front != [] {
        PadPrint(front, base);
        assert Print(0, base) == "0";
        PadZero(|front|);
      } else {
        assert PadStart("", 0) == "";
      }
    }
  }
}
