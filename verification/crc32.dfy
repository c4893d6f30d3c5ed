/**
 The payload fingerprint: a table-driven CRC-32 on 32-bit words.  The table loop is proved equal to the
 division of the message one bit at a time (section 8 of RFC 1952), with the register written as the
 list of its coefficients, lowest bit first; the division detects every burst of at most 32 bits.
 */
module Crc32 {
  import opened OrderedMap
  import Digits

  const POLYNOMIAL: bv32 := 0xedb8_8320
  const ALL_ONES: bv32 := 0xffff_ffff
  const SAMPLE_BYTES := 65536

  type Byte = b: bv32 | b < 256

  // ---- Words and their coefficients

  type Bits = seq<bool>

  function Zeros(n: nat): (z: Bits)
    ensures |z| == n && forall i :: 0 <= i < n ==> !z[i]
  {
    seq(n, _ => false)
  }

  type Register = r: Bits | |r| == 32 witness Zeros(32)

  function Xor(x: Bits, y: Bits): (z: Bits)
    requires |x| == |y|
    ensures |z| == |x| && forall i :: 0 <= i < |z| ==> z[i] == (x[i] != y[i])
  {
    seq(|x|, i requires 0 <= i < |x| => x[i] != y[i])
  }

  function Mask(i: nat): bv32 {
    if i == 0 then 1 else Mask(i - 1) << 1
  }

  predicate Has(w: bv32, mask: bv32) {
    w & mask != 0
  }

  function Coefficients(w: bv32): (c: Register)
    ensures forall i {:trigger c[i]} :: 0 <= i < 32 ==> c[i] == Has(w, Mask(i))
  {
    seq(32, i requires 0 <= i < 32 => Has(w, Mask(i)))
  }

  lemma DoubledSingle(m: bv32)
    requires m & (m - 1) == 0
    ensures (m << 1) & ((m << 1) - 1) == 0
  {
  }

  lemma {:induction false} MaskSingle(i: nat)
    ensures Mask(i) & (Mask(i) - 1) == 0
  {
    if i > 0 {
      MaskSingle(i - 1);
      DoubledSingle(Mask(i - 1));
    }
  }

  lemma MaskNext(i: nat)
    ensures Mask(i + 1) == Mask(i) << 1
  {
  }

  lemma MaskLow()
    ensures Mask(0) == 1 && Mask(1) == 2 && Mask(2) == 4 && Mask(3) == 8
    ensures Mask(4) == 16 && Mask(5) == 32 && Mask(6) == 64 && Mask(7) == 128
  {
  }

  lemma HasXor(x: bv32, y: bv32, mask: bv32)
    requires mask & (mask - 1) == 0
    ensures Has(x ^ y, mask) == (Has(x, mask) != Has(y, mask))
  {
  }

  lemma CoefficientsXor(x: bv32, y: bv32)
    ensures Coefficients(x ^ y) == Xor(Coefficients(x), Coefficients(y))
  {
    forall i | 0 <= i < 32 ensures Coefficients(x ^ y)[i] == Xor(Coefficients(x), Coefficients(y))[i] {
      MaskSingle(i);
      HasXor(x, y, Mask(i));
    }
  }

  lemma HasHalf(w: bv32, mask: bv32)
    ensures Has(w >> 1, mask) == Has(w, mask << 1)
  {
  }

  lemma MaskTop()
    ensures Mask(31) == 0x8000_0000 && Mask(32) == 0
  {
    assert Mask(10) == 0x400;
    assert Mask(16) == 0x1_0000;
    assert Mask(22) == 0x40_0000;
    assert Mask(28) == 0x1000_0000;
  }

  // ---- The reference: one message bit at a time

  function Halved(c: Register): Register {
    c[1..] + [false]
  }

  /** The register moves one place; a bit that falls out subtracts the polynomial. */
  function Shift(c: Register): Register {
    if c[0] then Xor(Coefficients(POLYNOMIAL), Halved(c)) else Halved(c)
  }

  function FeedBit(c: Register, bit: bool): Register {
    Shift(c[0 := c[0] != bit])
  }

  function FeedBits(c: Register, bits: Bits): Register
    decreases |bits|
  {
    if bits == [] then c else FeedBits(FeedBit(c, bits[0]), bits[1..])
  }

  function Ones(): Register {
    Coefficients(ALL_ONES)
  }

  function Crc(bits: Bits): Register {
    Xor(FeedBits(Ones(), bits), Ones())
  }

  lemma {:induction false} FeedConcat(c: Register, x: Bits, y: Bits)
    ensures FeedBits(c, x + y) == FeedBits(FeedBits(c, x), y)
    decreases |x|
  {
    if x == [] {
      assert x + y == y;
    } else {
      assert (x + y)[1..] == x[1..] + y;
      FeedConcat(FeedBit(c, x[0]), x[1..], y);
    }
  }

  // ---- The register is linear, so a whole word can be added first and shifted through

  function Shifts(c: Register, n: nat): Register
    decreases n
  {
    if n == 0 then c else Shifts(Shift(c), n - 1)
  }

  lemma ShiftXor(x: Register, y: Register)
    ensures Shift(Xor(x, y)) == Xor(Shift(x), Shift(y))
  {
    var s, t := Shift(Xor(x, y)), Xor(Shift(x), Shift(y));
    forall i | 0 <= i < 32 ensures s[i] == t[i] {
      assert Halved(Xor(x, y))[i] == (Halved(x)[i] != Halved(y)[i]);
    }
  }

  lemma {:induction false} ShiftsXor(x: Register, y: Register, n: nat)
    ensures Shifts(Xor(x, y), n) == Xor(Shifts(x, n), Shifts(y, n))
    decreases n
  {
    if n > 0 {
      ShiftXor(x, y);
      ShiftsXor(Shift(x), Shift(y), n - 1);
    }
  }

  function Padded(bits: Bits): Register
    requires |bits| <= 32
  {
    bits + Zeros(32 - |bits|)
  }

  lemma FeedHead(c: Register, bits: Bits)
    requires 0 < |bits| <= 32
    ensures Shift(Xor(c, Padded(bits))) == Xor(FeedBit(c, bits[0]), Padded(bits[1..]))
  {
    var rest := [false] + bits[1..];
    assert Xor(c, Padded(bits)) == Xor(c[0 := c[0] != bits[0]], Padded(rest));
    ShiftXor(c[0 := c[0] != bits[0]], Padded(rest));
    assert Halved(Padded(rest)) == Padded(bits[1..]);
  }

  /** Feeding at most 32 bits one at a time is one addition and as many shifts. */
  lemma {:induction false} FeedWord(c: Register, bits: Bits)
    requires |bits| <= 32
    ensures FeedBits(c, bits) == Shifts(Xor(c, Padded(bits)), |bits|)
    decreases |bits|
  {
    if bits == [] {
      assert Xor(c, Padded(bits)) == c;
    } else {
      FeedHead(c, bits);
      FeedWord(FeedBit(c, bits[0]), bits[1..]);
    }
  }

  // ---- What the fingerprint detects

  lemma ShiftInjective(x: Register, y: Register)
    requires Shift(x) == Shift(y)
    ensures x == y
  {
    MaskTop();
    assert Coefficients(POLYNOMIAL)[31];
    assert Shift(x)[31] == x[0] && Shift(y)[31] == y[0];
    forall i | 0 <= i < 32 ensures x[i] == y[i] {
      if i > 0 {
        assert Halved(x)[i - 1] == x[i] && Halved(y)[i - 1] == y[i];
        assert Shift(x)[i - 1] == Shift(y)[i - 1];
      }
    }
  }

  lemma {:induction false} ShiftsInjective(x: Register, y: Register, n: nat)
    requires Shifts(x, n) == Shifts(y, n)
    ensures x == y
    decreases n
  {
    if n > 0 {
      ShiftsInjective(Shift(x), Shift(y), n - 1);
      ShiftInjective(x, y);
    }
  }

  lemma XorCancels(c: Register, x: Register, y: Register)
    requires Xor(c, x) == Xor(c, y)
    ensures x == y
  {
    forall i | 0 <= i < 32 ensures x[i] == y[i] {
      assert Xor(c, x)[i] == Xor(c, y)[i];
    }
  }

  /** From one register, two words of the same length at most 32 lead to one register only if they are equal. */
  lemma WordsTellApart(c: Register, u: Bits, v: Bits)
    requires |u| == |v| <= 32 && FeedBits(c, u) == FeedBits(c, v)
    ensures u == v
  {
    FeedWord(c, u);
    FeedWord(c, v);
    ShiftsInjective(Xor(c, Padded(u)), Xor(c, Padded(v)), |u|);
    XorCancels(c, Padded(u), Padded(v));
    assert Padded(u)[..|u|] == u && Padded(v)[..|v|] == v;
  }

  lemma FeedBitInjective(c: Register, d: Register, bit: bool)
    requires FeedBit(c, bit) == FeedBit(d, bit)
    ensures c == d
  {
    var x, y := c[0 := c[0] != bit], d[0 := d[0] != bit];
    ShiftInjective(x, y);
    forall i | 0 <= i < 32 ensures c[i] == d[i] {
      assert x[i] == y[i];
    }
  }

  lemma {:induction false} SuffixInjective(c: Register, d: Register, bits: Bits)
    requires FeedBits(c, bits) == FeedBits(d, bits)
    ensures c == d
    decreases |bits|
  {
    if bits != [] {
      SuffixInjective(FeedBit(c, bits[0]), FeedBit(d, bits[0]), bits[1..]);
      FeedBitInjective(c, d, bits[0]);
    }
  }

  lemma CrcDetermines(x: Bits, y: Bits)
    requires Crc(x) == Crc(y)
    ensures FeedBits(Ones(), x) == FeedBits(Ones(), y)
  {
    var a, b := FeedBits(Ones(), x), FeedBits(Ones(), y);
    forall i | 0 <= i < 32 ensures a[i] == b[i] {
      assert Crc(x)[i] == Crc(y)[i];
    }
  }

  /** Two messages that differ only inside a window of at most 32 bits have different checksums. */
  lemma BurstDetected(before: Bits, u: Bits, v: Bits, after: Bits)
    requires |u| == |v| <= 32 && u != v
    ensures Crc(before + u + after) != Crc(before + v + after)
  {
    var c := FeedBits(Ones(), before);
    FeedConcat(Ones(), before + u, after);
    FeedConcat(Ones(), before, u);
    FeedConcat(Ones(), before + v, after);
    FeedConcat(Ones(), before, v);
    if Crc(before + u + after) == Crc(before + v + after) {
      CrcDetermines(before + u + after, before + v + after);
      SuffixInjective(FeedBits(c, u), FeedBits(c, v), after);
      WordsTellApart(c, u, v);
    }
  }

  // ---- The table and the loop

  function MessageBits(data: seq<Byte>): (bits: Bits)
    ensures |bits| == 8 * |data|
  {
    if data == [] then [] else MessageBits(data[..|data| - 1]) + Coefficients(data[|data| - 1])[..8]
  }

  /** A table entry is its index shifted through eight places. */
  ghost predicate Entry(word: bv32, index: bv32) {
    Coefficients(word) == Shifts(Coefficients(index), 8)
  }

  ghost predicate EntryAt(table: seq<bv32>, i: int) {
    0 <= i < 256 && i < |table| && Entry(table[i], i as bv32)
  }

  ghost predicate TableOk(table: seq<bv32>) {
    |table| == 256 && forall i {:trigger EntryAt(table, i)} :: 0 <= i < 256 ==> EntryAt(table, i)
  }

  lemma HalfAt(w: bv32, i: nat)
    requires i < 32
    ensures Has(w >> 1, Mask(i)) == (i < 31 && Has(w, Mask(i + 1)))
  {
    HasHalf(w, Mask(i));
    MaskNext(i);
    if i == 31 { MaskTop(); }
  }

  lemma CoefficientsHalf(w: bv32)
    ensures Coefficients(w >> 1) == Halved(Coefficients(w))
  {
    forall i | 0 <= i < 32 ensures Coefficients(w >> 1)[i] == Halved(Coefficients(w))[i] {
      HalfAt(w, i);
    }
  }

  /** `n` halvings drop the `n` lowest coefficients. */
  function Dropped(c: Register, n: nat): Register
    requires n <= 32
  {
    c[n..] + Zeros(n)
  }

  lemma DroppedTwice(c: Register, d: Register, e: Register, n: nat)
    requires n <= 16 && d == Dropped(c, n) && e == Dropped(d, n)
    ensures e == Dropped(c, 2 * n)
  {
  }

  lemma CoefficientsDown1(w: bv32, v: bv32)
    requires v == w >> 1
    ensures Coefficients(v) == Dropped(Coefficients(w), 1)
  {
    CoefficientsHalf(w);
  }

  lemma Twice(w: bv32, v: bv32)
    ensures v == w >> 1 ==> v >> 1 == w >> 2
    ensures v == w >> 2 ==> v >> 2 == w >> 4
    ensures v == w >> 4 ==> v >> 4 == w >> 8
  {
  }

  lemma CoefficientsDown2(w: bv32, u: bv32)
    requires u == w >> 2
    ensures Coefficients(u) == Dropped(Coefficients(w), 2)
  {
    var v := w >> 1;
    Twice(w, v);
    CoefficientsDown1(w, v);
    CoefficientsDown1(v, u);
    DroppedTwice(Coefficients(w), Coefficients(v), Coefficients(u), 1);
  }

  lemma CoefficientsDown4(w: bv32, u: bv32)
    requires u == w >> 4
    ensures Coefficients(u) == Dropped(Coefficients(w), 4)
  {
    var v := w >> 2;
    Twice(w, v);
    CoefficientsDown2(w, v);
    CoefficientsDown2(v, u);
    DroppedTwice(Coefficients(w), Coefficients(v), Coefficients(u), 2);
  }

  lemma CoefficientsDown8(w: bv32, u: bv32)
    requires u == w >> 8
    ensures Coefficients(u) == Dropped(Coefficients(w), 8)
  {
    var v := w >> 4;
    Twice(w, v);
    CoefficientsDown4(w, v);
    CoefficientsDown4(v, u);
    DroppedTwice(Coefficients(w), Coefficients(v), Coefficients(u), 4);
  }

  lemma LowestBit(w: bv32)
    ensures Coefficients(w)[0] == (w & 1 == 1)
  {
    assert Mask(0) == 1;
  }

  lemma CoefficientsShift(w: bv32, next: bv32)
    requires next == if w & 1 == 1 then POLYNOMIAL ^ (w >> 1) else w >> 1
    ensures Coefficients(next) == Shift(Coefficients(w))
  {
    CoefficientsHalf(w);
    CoefficientsXor(POLYNOMIAL, w >> 1);
    LowestBit(w);
  }

  lemma {:induction false} ShiftsLast(c: Register, n: nat)
    ensures Shifts(c, n + 1) == Shift(Shifts(c, n))
    decreases n
  {
    if n > 0 { ShiftsLast(Shift(c), n - 1); }
  }

  method TableEntry(i: nat) returns (c: bv32)
    requires i < 256
    ensures Entry(c, i as bv32)
  {
    c := i as bv32;
    for j := 0 to 8
      invariant Coefficients(c) == Shifts(Coefficients(i as bv32), j)
    {
      ghost var w := c;
      c := if c & 1 == 1 then POLYNOMIAL ^ (c >> 1) else c >> 1;
      CoefficientsShift(w, c);
      ShiftsLast(Coefficients(i as bv32), j);
    }
  }

  method BuildTable() returns (table: array<bv32>)
    ensures fresh(table) && TableOk(table[..])
  {
    table := new bv32[256];
    for i := 0 to 256
      invariant forall k {:trigger EntryAt(table[..], k)} :: 0 <= k < i ==> EntryAt(table[..], k)
    {
      var c := TableEntry(i);
      ghost var before := table[..];
      table[i] := c;
      assert table[..] == before[i := c];
      forall k | 0 <= k < i + 1 ensures EntryAt(table[..], k) {
        assert k < i ==> EntryAt(before, k);
      }
    }
  }

  lemma CoefficientsZero()
    ensures Coefficients(0) == Zeros(32)
  {
  }

  lemma HasLow(x: bv32, mask: bv32)
    requires mask & 0xff == mask
    ensures Has(x & 0xff, mask) == Has(x, mask)
  {
  }

  lemma LowCoefficients(x: bv32)
    ensures Coefficients(x & 0xff) == Coefficients(x)[..8] + Zeros(24)
  {
    var low := x & 0xff;
    assert low >> 8 == 0;
    CoefficientsDown8(low, 0);
    CoefficientsZero();
    forall i | 8 <= i < 32 ensures !Coefficients(low)[i] {
      assert Dropped(Coefficients(low), 8)[i - 8] == Coefficients(low)[i];
    }
    forall i | 0 <= i < 8 ensures Coefficients(low)[i] == Coefficients(x)[i] {
      MaskLow();
      HasLow(x, Mask(i));
    }
  }

  lemma {:induction false} ShiftsClear(c: Register, n: nat)
    requires n <= 32 && forall i :: 0 <= i < n ==> !c[i]
    ensures Shifts(c, n) == Dropped(c, n)
    decreases n
  {
    if n > 0 {
      ShiftsClear(Halved(c), n - 1);
      assert Dropped(Halved(c), n - 1) == Dropped(c, n);
    } else {
      assert Dropped(c, 0) == c;
    }
  }

  /** Eight places: the low byte is shifted through, the other coefficients only move. */
  lemma ShiftsByByte(c: Register)
    ensures Shifts(c, 8) == Xor(Shifts(c[..8] + Zeros(24), 8), Dropped(c, 8))
  {
    var low, high := c[..8] + Zeros(24), Zeros(8) + c[8..];
    assert c == Xor(low, high);
    ShiftsXor(low, high, 8);
    ShiftsClear(high, 8);
    assert Dropped(high, 8) == Dropped(c, 8);
  }

  lemma SumDropped(c: Register, bits: Bits, sum: Register)
    requires |bits| == 8 && sum == Xor(c, Padded(bits))
    ensures Dropped(sum, 8) == Dropped(c, 8)
  {
  }

  /** The four register operations of one turn feed the eight bits of a byte. */
  lemma FeedByte(c: Register, bits: Bits, sum: Register, entry: Register)
    requires |bits| == 8 && sum == Xor(c, Padded(bits)) && entry == Shifts(sum[..8] + Zeros(24), 8)
    ensures Xor(entry, Dropped(c, 8)) == FeedBits(c, bits)
  {
    FeedWord(c, bits);
    ShiftsByByte(sum);
    SumDropped(c, bits, sum);
  }

  lemma ByteCoefficients(b: Byte)
    ensures Coefficients(b) == Padded(Coefficients(b)[..8])
  {
    LowCoefficients(b);
    assert b & 0xff == b;
  }

  lemma SumCoefficients(crc: bv32, b: Byte, sum: bv32)
    requires sum == crc ^ b
    ensures Coefficients(sum) == Xor(Coefficients(crc), Padded(Coefficients(b)[..8]))
  {
    CoefficientsXor(crc, b);
    ByteCoefficients(b);
  }

  lemma NextCoefficients(crc: bv32, entry: bv32, next: bv32)
    requires next == entry ^ (crc >> 8)
    ensures Coefficients(next) == Xor(Coefficients(entry), Dropped(Coefficients(crc), 8))
  {
    CoefficientsXor(entry, crc >> 8);
    CoefficientsDown8(crc, crc >> 8);
  }

  lemma EntryCoefficients(sum: bv32, entry: bv32)
    requires Entry(entry, sum & 0xff)
    ensures Coefficients(entry) == Shifts(Coefficients(sum)[..8] + Zeros(24), 8)
  {
    LowCoefficients(sum);
  }

  /** One turn of the loop, by table, feeds the eight bits of the byte. */
  lemma ByteStep(crc: bv32, b: Byte, sum: bv32, entry: bv32, next: bv32)
    requires sum == crc ^ b && next == entry ^ (crc >> 8) && Entry(entry, sum & 0xff)
    ensures Coefficients(next) == FeedBits(Coefficients(crc), Coefficients(b)[..8])
  {
    SumCoefficients(crc, b, sum);
    EntryCoefficients(sum, entry);
    NextCoefficients(crc, entry, next);
    FeedByte(Coefficients(crc), Coefficients(b)[..8], Coefficients(sum), Coefficients(entry));
  }

  lemma MessageSnoc(data: seq<Byte>, i: nat)
    requires i < |data|
    ensures FeedBits(Ones(), MessageBits(data[..i + 1]))
         == FeedBits(FeedBits(Ones(), MessageBits(data[..i])), Coefficients(data[i])[..8])
  {
    assert data[..i + 1][..i] == data[..i];
    FeedConcat(Ones(), MessageBits(data[..i]), Coefficients(data[i])[..8]);
  }

  lemma RoundTripIndex(v: bv32)
    ensures (v as int) as bv32 == v
  {
  }

  lemma SmallIndex(w: bv32)
    ensures (w & 0xff) as int < 256
  {
  }

  lemma LookupEntry(table: seq<bv32>, sum: bv32, k: int)
    requires TableOk(table) && k == (sum & 0xff) as int
    ensures 0 <= k < 256 && Entry(table[k], sum & 0xff)
  {
    SmallIndex(sum);
    RoundTripIndex(sum & 0xff);
    assert EntryAt(table, k);
  }

  /** One turn of the loop. */
  method AddByte(table: array<bv32>, crc: bv32, b: Byte) returns (next: bv32)
    requires TableOk(table[..])
    ensures Coefficients(next) == FeedBits(Coefficients(crc), Coefficients(b)[..8])
  {
    var sum := crc ^ b;
    var k := (sum & 0xff) as int;
    LookupEntry(table[..], sum, k);
    var entry := table[k];
    next := entry ^ (crc >> 8);
    ByteStep(crc, b, sum, entry, next);
  }

  lemma Complement(crc: bv32, view: seq<Byte>)
    requires Coefficients(crc) == FeedBits(Ones(), MessageBits(view))
    ensures Coefficients(crc ^ ALL_ONES) == Crc(MessageBits(view))
  {
    CoefficientsXor(crc, ALL_ONES);
  }

  /** The loop over the sample computes the bit-at-a-time checksum. */
  method Checksum(table: array<bv32>, view: seq<Byte>) returns (crc: bv32)
    requires TableOk(table[..])
    ensures Coefficients(crc) == Crc(MessageBits(view))
  {
    crc := ALL_ONES;
    for i := 0 to |view|
      invariant Coefficients(crc) == FeedBits(Ones(), MessageBits(view[..i]))
    {
      MessageSnoc(view, i);
      crc := AddByte(table, crc, view[i]);
    }
    assert view[..|view|] == view;
    Complement(crc, view);
    crc := crc ^ ALL_ONES;
  }

  // ---- The fingerprint record

  datatype Fingerprint = Fingerprint(crc: string, byteLength: nat, sampleBytes: nat)

  /** `fingerprintByteView` */
  function Sample(bytes: seq<Byte>): seq<Byte> {
    if |bytes| <= SAMPLE_BYTES then bytes else bytes[..SAMPLE_BYTES]
  }

  /** Upper-case hexadecimal, padded to eight digits. */
  function Hex(w: bv32): string {
    Digits.PadStart(Digits.Print(w as int, 16), 8)
  }

  ghost predicate IsFingerprint(bytes: seq<Byte>, fp: Option<Fingerprint>) {
    match fp
    case None => bytes == []
    case Some(f) =>
      && bytes != []
      && f.byteLength == |bytes|
      && f.sampleBytes == |Sample(bytes)|
      && exists w :: Coefficients(w) == Crc(MessageBits(Sample(bytes))) && f.crc == Hex(w)
  }

  method Crc32Fingerprint(table: array<bv32>, bytes: seq<Byte>) returns (fp: Option<Fingerprint>)
    requires TableOk(table[..])
    ensures IsFingerprint(bytes, fp)
  {
    if |bytes| == 0 { return None; }
    var view := Sample(bytes);
    var crc := Checksum(table, view);
    fp := Some(Fingerprint(Hex(crc), |bytes|, if |bytes| < SAMPLE_BYTES then |bytes| else SAMPLE_BYTES));
  }

  lemma HexNumber(w: bv32)
    ensures Digits.Number(Hex(w), 16) == w as int
  {
    Digits.PrintNumber(w as int, 16);
    Digits.PrintDigits(w as int, 16);
    Digits.PadNumber(Digits.Print(w as int, 16), 8, 16);
  }

  lemma HexInjective(w: bv32, v: bv32)
    requires Hex(w) == Hex(v)
    ensures w == v
  {
    HexNumber(w);
    HexNumber(v);
    RoundTripIndex(w);
    RoundTripIndex(v);
  }

  lemma WordBelow(w: bv32)
    ensures w as int < 0x1_0000_0000
  {
  }

  lemma Power16()
    ensures Digits.Power(16, 8) == 0x1_0000_0000
  {
    assert Digits.Power(16, 2) == 0x100;
    assert Digits.Power(16, 4) == 0x1_0000;
    assert Digits.Power(16, 6) == 0x100_0000;
  }

  /** Every checksum is exactly eight digits long and stands for its word. */
  lemma HexRoundTrip(w: bv32)
    ensures |Hex(w)| == 8 && Digits.AllDigits(Hex(w), 16) && Digits.Number(Hex(w), 16) == w as int
  {
    HexNumber(w);
    WordBelow(w);
    Power16();
    Digits.PrintFits(w as int, 8, 16);
    Digits.PrintDigits(w as int, 16);
    Digits.PadNumber(Digits.Print(w as int, 16), 8, 16);
  }

  lemma EightBits(w: bv32)
    requires !Has(w, 1) && !Has(w, 2) && !Has(w, 4) && !Has(w, 8)
    requires !Has(w, 16) && !Has(w, 32) && !Has(w, 64) && !Has(w, 128)
    ensures w & 0xff == 0
  {
  }

  lemma LowByteZero(w: bv32)
    requires forall i :: 0 <= i < 8 ==> !Coefficients(w)[i]
    ensures w & 0xff == 0
  {
    MaskLow();
    var c := Coefficients(w);
    assert !c[0] && !c[1] && !c[2] && !c[3] && !c[4] && !c[5] && !c[6] && !c[7];
    EightBits(w);
  }

  lemma FourBytes(w: bv32, a: bv32, b: bv32, c: bv32)
    requires a == w >> 8 && b == a >> 8 && c == b >> 8
    requires w & 0xff == 0 && a & 0xff == 0 && b & 0xff == 0 && c & 0xff == 0
    ensures w == 0
  {
  }

  lemma DownZero(w: bv32, v: bv32)
    requires Coefficients(w) == Zeros(32) && v == w >> 8
    ensures Coefficients(v) == Zeros(32)
  {
    CoefficientsDown8(w, v);
    assert Dropped(Zeros(32), 8) == Zeros(32);
  }

  lemma AllZero(w: bv32)
    requires Coefficients(w) == Zeros(32)
    ensures w == 0
  {
    var a := w >> 8;
    var b := a >> 8;
    var c := b >> 8;
    DownZero(w, a);
    DownZero(a, b);
    DownZero(b, c);
    LowByteZero(w);
    LowByteZero(a);
    LowByteZero(b);
    LowByteZero(c);
    FourBytes(w, a, b, c);
  }

  lemma XorZero(w: bv32, v: bv32)
    requires w ^ v == 0
    ensures w == v
  {
  }

  lemma CoefficientsInjective(w: bv32, v: bv32)
    requires Coefficients(w) == Coefficients(v)
    ensures w == v
  {
    CoefficientsXor(w, v);
    assert Xor(Coefficients(w), Coefficients(v)) == Zeros(32);
    AllZero(w ^ v);
    XorZero(w, v);
  }

  /** A payload has one fingerprint. */
  lemma FingerprintUnique(bytes: seq<Byte>, f: Option<Fingerprint>, g: Option<Fingerprint>)
    requires IsFingerprint(bytes, f) && IsFingerprint(bytes, g)
    ensures f == g
  {
    if bytes != [] {
      var w :| Coefficients(w) == Crc(MessageBits(Sample(bytes))) && f.value.crc == Hex(w);
      var v :| Coefficients(v) == Crc(MessageBits(Sample(bytes))) && g.value.crc == Hex(v);
      CoefficientsInjective(w, v);
    }
  }

  lemma {:induction false} MessageConcat(x: seq<Byte>, y: seq<Byte>)
    ensures MessageBits(x + y) == MessageBits(x) + MessageBits(y)
    decreases |y|
  {
    if y == [] {
      assert x + y == x;
    } else {
      assert (x + y)[..|x + y| - 1] == x + y[..|y| - 1];
      MessageConcat(x, y[..|y| - 1]);
    }
  }

  lemma ByteInjective(a: Byte, b: Byte)
    requires Coefficients(a)[..8] == Coefficients(b)[..8]
    ensures a == b
  {
    ByteCoefficients(a);
    ByteCoefficients(b);
    CoefficientsInjective(a, b);
  }

  lemma SplitLast(p: Bits, q: Bits, x: Bits, y: Bits)
    requires |x| == |y| && p + x == q + y
    ensures p == q && x == y
  {
    assert |p| == |q|;
    assert p == (p + x)[..|p|] && q == (q + y)[..|q|];
    assert x == (p + x)[|p|..] && y == (q + y)[|q|..];
  }

  lemma {:induction false} MessageInjective(x: seq<Byte>, y: seq<Byte>)
    requires MessageBits(x) == MessageBits(y)
    ensures x == y
    decreases |x|
  {
    assert |x| == |y|;
    if x != [] {
      var n := |x| - 1;
      SplitLast(MessageBits(x[..n]), MessageBits(y[..n]), Coefficients(x[n])[..8], Coefficients(y[n])[..8]);
      MessageInjective(x[..n], y[..n]);
      ByteInjective(x[n], y[n]);
      assert x == x[..n] + [x[n]] && y == y[..n] + [y[n]];
    }
  }

  /**
   Payloads that differ only inside a window of four bytes of the sample have different fingerprints; a
   difference beyond the sample is not seen.
   */
  lemma BurstChangesFingerprint(before: seq<Byte>, u: seq<Byte>, v: seq<Byte>, after: seq<Byte>, f: Fingerprint,
    g: Fingerprint)
    requires |u| == |v| <= 4 && u != v && |before| + |u| <= SAMPLE_BYTES
    requires IsFingerprint(before + u + after, Some(f)) && IsFingerprint(before + v + after, Some(g))
    ensures f.crc != g.crc
  {
    var a, b := before + u + after, before + v + after;
    var rest := if |a| <= SAMPLE_BYTES then after else after[..SAMPLE_BYTES - |before| - |u|];
    assert Sample(a) == before + u + rest && Sample(b) == before + v + rest;
    MessageConcat(before + u, rest);
    MessageConcat(before, u);
    MessageConcat(before + v, rest);
    MessageConcat(before, v);
    if MessageBits(u) == MessageBits(v) { MessageInjective(u, v); }
    BurstDetected(MessageBits(before), MessageBits(u), MessageBits(v), MessageBits(rest));
    if f.crc == g.crc {
      var w :| Coefficients(w) == Crc(MessageBits(Sample(a))) && f.crc == Hex(w);
      var x :| Coefficients(x) == Crc(MessageBits(Sample(b))) && g.crc == Hex(x);
      HexInjective(w, x);
    }
  }

  lemma BeyondSample(x: seq<Byte>, y: seq<Byte>, f: Fingerprint, g: Fingerprint)
    requires |x| >= SAMPLE_BYTES && |y| >= SAMPLE_BYTES && x[..SAMPLE_BYTES] == y[..SAMPLE_BYTES]
    requires IsFingerprint(x, Some(f)) && IsFingerprint(y, Some(g))
    ensures f.crc == g.crc
  {
    assert Sample(x) == x[..SAMPLE_BYTES] && Sample(y) == y[..SAMPLE_BYTES];
    var w :| Coefficients(w) == Crc(MessageBits(Sample(x))) && f.crc == Hex(w);
    var v :| Coefficients(v) == Crc(MessageBits(Sample(y))) && g.crc == Hex(v);
    CoefficientsInjective(w, v);
  }
}
