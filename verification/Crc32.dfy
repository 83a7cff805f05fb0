/** The CRC-32 fingerprint: the table-driven loop of the program, the bit-serial register of
    section 8 of RFC 1952 that it stands for, and the error bursts it is certain to detect.

    Proofs about sequences hide the bit-vector operations (Xor, BitStep, ...) and use only their
    algebra, which is proved once by bit-vector reasoning. */
module Crc32 {

  type byte = bv8

  // ----- The reference: a shift register fed one bit at a time, least significant bit first

  function Xor(a: bv32, b: bv32): bv32 {
    a ^ b
  }

  function BitStep(r: bv32): bv32 {
    if r & 1 == 1 then (r >> 1) ^ 0xEDB88320 else r >> 1
  }

  function Bit(b: bool): bv32 {
    if b then 1 else 0
  }

  function Serial(r: bv32, bits: seq<bool>): bv32
    decreases |bits|
  {
    if bits == [] then r else Serial(BitStep(Xor(r, Bit(bits[0]))), bits[1..])
  }

  function LowBit(x: bv32): bool {
    x & 1 == 1
  }

  function Half(x: bv32): bv32 {
    x >> 1
  }

  function BitsOf(x: bv32, n: nat): (bits: seq<bool>)
    ensures |bits| == n
  {
    if n == 0 then [] else [LowBit(x)] + BitsOf(Half(x), n - 1)
  }

  function Word(b: byte): bv32 {
    b as bv32
  }

  function Bits(buf: seq<byte>): (bits: seq<bool>)
    ensures |bits| == 8 * |buf|
  {
    if buf == [] then [] else BitsOf(Word(buf[0]), 8) + Bits(buf[1..])
  }

  const ONES: bv32 := 0xFFFF_FFFF

  /** Bit-serial CRC-32 of a buffer, with the pre- and post-conditioning of the register. */
  function Crc(crc: bv32, buf: seq<byte>): bv32 {
    Xor(Serial(Xor(crc, ONES), Bits(buf)), ONES)
  }

  // ----- Algebra of the register

  lemma XorAssoc(x: bv32, y: bv32, z: bv32)
    ensures Xor(x, Xor(y, z)) == Xor(Xor(x, y), z)
  {}

  lemma XorSwap(x: bv32, y: bv32, z: bv32, w: bv32)
    ensures Xor(Xor(x, y), Xor(z, w)) == Xor(Xor(x, z), Xor(y, w))
  {
    hide Xor;
    calc {
      Xor(Xor(x, y), Xor(z, w));
      { XorAssoc(Xor(x, y), z, w); XorAssoc(x, y, z); }
      Xor(Xor(x, Xor(y, z)), w);
      { XorComm(y, z); }
      Xor(Xor(x, Xor(z, y)), w);
      { XorAssoc(x, z, y); XorAssoc(Xor(x, z), y, w); }
      Xor(Xor(x, z), Xor(y, w));
    }
  }

  lemma XorComm(x: bv32, y: bv32)
    ensures Xor(x, y) == Xor(y, x)
  {}

  lemma XorTwice(x: bv32, y: bv32)
    ensures Xor(Xor(x, y), y) == x
  {}

  lemma XorNone(x: bv32)
    ensures Xor(x, 0) == x == Xor(0, x)
    ensures Xor(x, x) == 0
  {}

  lemma XorZero(x: bv32, y: bv32)
    ensures Xor(x, 0) == x == Xor(0, x)
    ensures Xor(x, y) == 0 <==> x == y
  {
    hide Xor;
    XorNone(x);
    XorNone(y);
    XorTwice(x, y);
  }

  lemma BitXor(a: bool, b: bool)
    ensures Xor(Bit(a), Bit(b)) == Bit(a != b)
  {}

  /** The register step is linear over GF(2). */
  lemma StepXor(a: bv32, b: bv32)
    ensures BitStep(Xor(a, b)) == Xor(BitStep(a), BitStep(b))
  {
    LowXor(a, b);
    Regroup(a >> 1, b >> 1, 0xEDB88320);
  }

  lemma LowXor(a: bv32, b: bv32)
    ensures (a ^ b) >> 1 == (a >> 1) ^ (b >> 1)
    ensures (a ^ b) & 1 == (a & 1) ^ (b & 1)
    ensures a & 1 == 0 || a & 1 == 1
    ensures b & 1 == 0 || b & 1 == 1
  {}

  lemma Regroup(x: bv32, y: bv32, p: bv32)
    ensures (x ^ y) ^ p == (x ^ p) ^ y == x ^ (y ^ p) && (x ^ p) ^ (y ^ p) == x ^ y
  {}

  /** ... and has no kernel: no register but zero steps to zero. */
  lemma StepKernel(x: bv32)
    ensures BitStep(x) == 0 <==> x == 0
  {}

  // ----- Feeding sequences

  lemma {:induction false} SerialAppend(r: bv32, a: seq<bool>, b: seq<bool>)
    ensures Serial(r, a + b) == Serial(Serial(r, a), b)
    decreases |a|
  {
    hide Xor, BitStep, Bit;
    if a == [] {
      assert a + b == b;
    } else {
      assert (a + b)[1..] == a[1..] + b;
      SerialAppend(BitStep(Xor(r, Bit(a[0]))), a[1..], b);
    }
  }

  lemma {:induction false} BitsAppend(a: seq<byte>, b: seq<byte>)
    ensures Bits(a + b) == Bits(a) + Bits(b)
  {
    hide BitsOf, Word;
    if a == [] {
      assert a + b == b;
    } else {
      assert (a + b)[1..] == a[1..] + b;
      BitsAppend(a[1..], b);
    }
  }

  /** Fingerprints compose: continuing from the CRC of a prefix gives the CRC of the whole. */
  lemma CrcCompose(c: bv32, a: seq<byte>, b: seq<byte>)
    ensures Crc(Crc(c, a), b) == Crc(c, a + b)
  {
    hide Xor, BitStep, Bits, Serial;
    var r := Serial(Xor(c, ONES), Bits(a));
    XorTwice(r, ONES);
    BitsAppend(a, b);
    SerialAppend(Xor(c, ONES), Bits(a), Bits(b));
  }

  // ----- The table tabulates eight register steps

  function EightSteps(r: bv32): bv32 {
    BitStep(BitStep(BitStep(BitStep(BitStep(BitStep(BitStep(BitStep(r))))))))
  }

  // The 256 constants of crc32_tab, eight to a row
  const ROW00: seq<bv32> := [
    0x00000000, 0x77073096, 0xEE0E612C, 0x990951BA,
    0x076DC419, 0x706AF48F, 0xE963A535, 0x9E6495A3]
  const ROW01: seq<bv32> := [
    0x0EDB8832, 0x79DCB8A4, 0xE0D5E91E, 0x97D2D988,
    0x09B64C2B, 0x7EB17CBD, 0xE7B82D07, 0x90BF1D91]
  const ROW02: seq<bv32> := [
    0x1DB71064, 0x6AB020F2, 0xF3B97148, 0x84BE41DE,
    0x1ADAD47D, 0x6DDDE4EB, 0xF4D4B551, 0x83D385C7]
  const ROW03: seq<bv32> := [
    0x136C9856, 0x646BA8C0, 0xFD62F97A, 0x8A65C9EC,
    0x14015C4F, 0x63066CD9, 0xFA0F3D63, 0x8D080DF5]
  const ROW04: seq<bv32> := [
    0x3B6E20C8, 0x4C69105E, 0xD56041E4, 0xA2677172,
    0x3C03E4D1, 0x4B04D447, 0xD20D85FD, 0xA50AB56B]
  const ROW05: seq<bv32> := [
    0x35B5A8FA, 0x42B2986C, 0xDBBBC9D6, 0xACBCF940,
    0x32D86CE3, 0x45DF5C75, 0xDCD60DCF, 0xABD13D59]
  const ROW06: seq<bv32> := [
    0x26D930AC, 0x51DE003A, 0xC8D75180, 0xBFD06116,
    0x21B4F4B5, 0x56B3C423, 0xCFBA9599, 0xB8BDA50F]
  const ROW07: seq<bv32> := [
    0x2802B89E, 0x5F058808, 0xC60CD9B2, 0xB10BE924,
    0x2F6F7C87, 0x58684C11, 0xC1611DAB, 0xB6662D3D]
  const ROW08: seq<bv32> := [
    0x76DC4190, 0x01DB7106, 0x98D220BC, 0xEFD5102A,
    0x71B18589, 0x06B6B51F, 0x9FBFE4A5, 0xE8B8D433]
  const ROW09: seq<bv32> := [
    0x7807C9A2, 0x0F00F934, 0x9609A88E, 0xE10E9818,
    0x7F6A0DBB, 0x086D3D2D, 0x91646C97, 0xE6635C01]
  const ROW0A: seq<bv32> := [
    0x6B6B51F4, 0x1C6C6162, 0x856530D8, 0xF262004E,
    0x6C0695ED, 0x1B01A57B, 0x8208F4C1, 0xF50FC457]
  const ROW0B: seq<bv32> := [
    0x65B0D9C6, 0x12B7E950, 0x8BBEB8EA, 0xFCB9887C,
    0x62DD1DDF, 0x15DA2D49, 0x8CD37CF3, 0xFBD44C65]
  const ROW0C: seq<bv32> := [
    0x4DB26158, 0x3AB551CE, 0xA3BC0074, 0xD4BB30E2,
    0x4ADFA541, 0x3DD895D7, 0xA4D1C46D, 0xD3D6F4FB]
  const ROW0D: seq<bv32> := [
    0x4369E96A, 0x346ED9FC, 0xAD678846, 0xDA60B8D0,
    0x44042D73, 0x33031DE5, 0xAA0A4C5F, 0xDD0D7CC9]
  const ROW0E: seq<bv32> := [
    0x5005713C, 0x270241AA, 0xBE0B1010, 0xC90C2086,
    0x5768B525, 0x206F85B3, 0xB966D409, 0xCE61E49F]
  const ROW0F: seq<bv32> := [
    0x5EDEF90E, 0x29D9C998, 0xB0D09822, 0xC7D7A8B4,
    0x59B33D17, 0x2EB40D81, 0xB7BD5C3B, 0xC0BA6CAD]
  const ROW10: seq<bv32> := [
    0xEDB88320, 0x9ABFB3B6, 0x03B6E20C, 0x74B1D29A,
    0xEAD54739, 0x9DD277AF, 0x04DB2615, 0x73DC1683]
  const ROW11: seq<bv32> := [
    0xE3630B12, 0x94643B84, 0x0D6D6A3E, 0x7A6A5AA8,
    0xE40ECF0B, 0x9309FF9D, 0x0A00AE27, 0x7D079EB1]
  const ROW12: seq<bv32> := [
    0xF00F9344, 0x8708A3D2, 0x1E01F268, 0x6906C2FE,
    0xF762575D, 0x806567CB, 0x196C3671, 0x6E6B06E7]
  const ROW13: seq<bv32> := [
    0xFED41B76, 0x89D32BE0, 0x10DA7A5A, 0x67DD4ACC,
    0xF9B9DF6F, 0x8EBEEFF9, 0x17B7BE43, 0x60B08ED5]
  const ROW14: seq<bv32> := [
    0xD6D6A3E8, 0xA1D1937E, 0x38D8C2C4, 0x4FDFF252,
    0xD1BB67F1, 0xA6BC5767, 0x3FB506DD, 0x48B2364B]
  const ROW15: seq<bv32> := [
    0xD80D2BDA, 0xAF0A1B4C, 0x36034AF6, 0x41047A60,
    0xDF60EFC3, 0xA867DF55, 0x316E8EEF, 0x4669BE79]
  const ROW16: seq<bv32> := [
    0xCB61B38C, 0xBC66831A, 0x256FD2A0, 0x5268E236,
    0xCC0C7795, 0xBB0B4703, 0x220216B9, 0x5505262F]
  const ROW17: seq<bv32> := [
    0xC5BA3BBE, 0xB2BD0B28, 0x2BB45A92, 0x5CB36A04,
    0xC2D7FFA7, 0xB5D0CF31, 0x2CD99E8B, 0x5BDEAE1D]
  const ROW18: seq<bv32> := [
    0x9B64C2B0, 0xEC63F226, 0x756AA39C, 0x026D930A,
    0x9C0906A9, 0xEB0E363F, 0x72076785, 0x05005713]
  const ROW19: seq<bv32> := [
    0x95BF4A82, 0xE2B87A14, 0x7BB12BAE, 0x0CB61B38,
    0x92D28E9B, 0xE5D5BE0D, 0x7CDCEFB7, 0x0BDBDF21]
  const ROW1A: seq<bv32> := [
    0x86D3D2D4, 0xF1D4E242, 0x68DDB3F8, 0x1FDA836E,
    0x81BE16CD, 0xF6B9265B, 0x6FB077E1, 0x18B74777]
  const ROW1B: seq<bv32> := [
    0x88085AE6, 0xFF0F6A70, 0x66063BCA, 0x11010B5C,
    0x8F659EFF, 0xF862AE69, 0x616BFFD3, 0x166CCF45]
  const ROW1C: seq<bv32> := [
    0xA00AE278, 0xD70DD2EE, 0x4E048354, 0x3903B3C2,
    0xA7672661, 0xD06016F7, 0x4969474D, 0x3E6E77DB]
  const ROW1D: seq<bv32> := [
    0xAED16A4A, 0xD9D65ADC, 0x40DF0B66, 0x37D83BF0,
    0xA9BCAE53, 0xDEBB9EC5, 0x47B2CF7F, 0x30B5FFE9]
  const ROW1E: seq<bv32> := [
    0xBDBDF21C, 0xCABAC28A, 0x53B39330, 0x24B4A3A6,
    0xBAD03605, 0xCDD70693, 0x54DE5729, 0x23D967BF]
  const ROW1F: seq<bv32> := [
    0xB3667A2E, 0xC4614AB8, 0x5D681B02, 0x2A6F2B94,
    0xB40BBE37, 0xC30C8EA1, 0x5A05DF1B, 0x2D02EF8D]

  const QUAD0: seq<bv32> := (ROW00 + ROW01) + (ROW02 + ROW03)
  const QUAD1: seq<bv32> := (ROW04 + ROW05) + (ROW06 + ROW07)
  const QUAD2: seq<bv32> := (ROW08 + ROW09) + (ROW0A + ROW0B)
  const QUAD3: seq<bv32> := (ROW0C + ROW0D) + (ROW0E + ROW0F)
  const QUAD4: seq<bv32> := (ROW10 + ROW11) + (ROW12 + ROW13)
  const QUAD5: seq<bv32> := (ROW14 + ROW15) + (ROW16 + ROW17)
  const QUAD6: seq<bv32> := (ROW18 + ROW19) + (ROW1A + ROW1B)
  const QUAD7: seq<bv32> := (ROW1C + ROW1D) + (ROW1E + ROW1F)
  const CRC32_TAB: seq<bv32> := ((QUAD0 + QUAD1) + (QUAD2 + QUAD3)) + ((QUAD4 + QUAD5) + (QUAD6 + QUAD7))

  function TableEntry(k: nat): bv32
    requires k < 256
  {
    EightSteps(k as bv32)
  }

  ghost predicate Tabulates(row: seq<bv32>, base: nat) {
    && base + |row| <= 256
    && forall j: nat {:trigger row[j]} | j < |row| :: row[j] == TableEntry(base + j)
  }

  ghost predicate Literal(row: seq<bv32>, base: nat) {
    && base + 8 <= 256 && |row| == 8
    && row[0] == TableEntry(base + 0) && row[1] == TableEntry(base + 1) && row[2] == TableEntry(base + 2)
         && row[3] == TableEntry(base + 3)
    && row[4] == TableEntry(base + 4) && row[5] == TableEntry(base + 5) && row[6] == TableEntry(base + 6)
         && row[7] == TableEntry(base + 7)
  }

  lemma Row00() ensures Literal(ROW00, 0x00) {}
  lemma Row01() ensures Literal(ROW01, 0x08) {}
  lemma Row02() ensures Literal(ROW02, 0x10) {}
  lemma Row03() ensures Literal(ROW03, 0x18) {}
  lemma Row04() ensures Literal(ROW04, 0x20) {}
  lemma Row05() ensures Literal(ROW05, 0x28) {}
  lemma Row06() ensures Literal(ROW06, 0x30) {}
  lemma Row07() ensures Literal(ROW07, 0x38) {}
  lemma Row08() ensures Literal(ROW08, 0x40) {}
  lemma Row09() ensures Literal(ROW09, 0x48) {}
  lemma Row0A() ensures Literal(ROW0A, 0x50) {}
  lemma Row0B() ensures Literal(ROW0B, 0x58) {}
  lemma Row0C() ensures Literal(ROW0C, 0x60) {}
  lemma Row0D() ensures Literal(ROW0D, 0x68) {}
  lemma Row0E() ensures Literal(ROW0E, 0x70) {}
  lemma Row0F() ensures Literal(ROW0F, 0x78) {}
  lemma Row10() ensures Literal(ROW10, 0x80) {}
  lemma Row11() ensures Literal(ROW11, 0x88) {}
  lemma Row12() ensures Literal(ROW12, 0x90) {}
  lemma Row13() ensures Literal(ROW13, 0x98) {}
  lemma Row14() ensures Literal(ROW14, 0xA0) {}
  lemma Row15() ensures Literal(ROW15, 0xA8) {}
  lemma Row16() ensures Literal(ROW16, 0xB0) {}
  lemma Row17() ensures Literal(ROW17, 0xB8) {}
  lemma Row18() ensures Literal(ROW18, 0xC0) {}
  lemma Row19() ensures Literal(ROW19, 0xC8) {}
  lemma Row1A() ensures Literal(ROW1A, 0xD0) {}
  lemma Row1B() ensures Literal(ROW1B, 0xD8) {}
  lemma Row1C() ensures Literal(ROW1C, 0xE0) {}
  lemma Row1D() ensures Literal(ROW1D, 0xE8) {}
  lemma Row1E() ensures Literal(ROW1E, 0xF0) {}
  lemma Row1F() ensures Literal(ROW1F, 0xF8) {}

  lemma LiteralTabulates(row: seq<bv32>, base: nat)
    requires Literal(row, base)
    ensures Tabulates(row, base)
  {
    hide TableEntry;
    forall j: nat | j < 8 ensures row[j] == TableEntry(base + j) {
      assert j == 0 || j == 1 || j == 2 || j == 3 || j == 4 || j == 5 || j == 6 || j == 7;
    }
  }

  lemma Join(r: seq<bv32>, s: seq<bv32>, base: nat)
    requires Tabulates(r, base) && Tabulates(s, base + |r|)
    ensures Tabulates(r + s, base)
  {
    hide TableEntry;
    forall j: nat | |r| <= j < |r + s| ensures (r + s)[j] == TableEntry(base + j) {
      assert s[j - |r|] == TableEntry(base + |r| + (j - |r|));
    }
  }

  lemma QuadTabulates(r0: seq<bv32>, r1: seq<bv32>, r2: seq<bv32>, r3: seq<bv32>, base: nat)
    requires Literal(r0, base) && Literal(r1, base + 8) && Literal(r2, base + 16) && Literal(r3, base + 24)
    ensures Tabulates((r0 + r1) + (r2 + r3), base) && |(r0 + r1) + (r2 + r3)| == 32
  {
    hide TableEntry;
    LiteralTabulates(r0, base);
    LiteralTabulates(r1, base + 8);
    LiteralTabulates(r2, base + 16);
    LiteralTabulates(r3, base + 24);
    Join(r0, r1, base);
    Join(r2, r3, base + 16);
    Join(r0 + r1, r2 + r3, base);
  }

  /** All 256 entries of the constant table are right. */
  lemma TableTabulates()
    ensures |CRC32_TAB| == 256 && Tabulates(CRC32_TAB, 0)
  {
    hide TableEntry, Tabulates, Literal;
    Row00(); Row01(); Row02(); Row03();
    QuadTabulates(ROW00, ROW01, ROW02, ROW03, 0x00);
    Row04(); Row05(); Row06(); Row07();
    QuadTabulates(ROW04, ROW05, ROW06, ROW07, 0x20);
    Row08(); Row09(); Row0A(); Row0B();
    QuadTabulates(ROW08, ROW09, ROW0A, ROW0B, 0x40);
    Row0C(); Row0D(); Row0E(); Row0F();
    QuadTabulates(ROW0C, ROW0D, ROW0E, ROW0F, 0x60);
    Row10(); Row11(); Row12(); Row13();
    QuadTabulates(ROW10, ROW11, ROW12, ROW13, 0x80);
    Row14(); Row15(); Row16(); Row17();
    QuadTabulates(ROW14, ROW15, ROW16, ROW17, 0xA0);
    Row18(); Row19(); Row1A(); Row1B();
    QuadTabulates(ROW18, ROW19, ROW1A, ROW1B, 0xC0);
    Row1C(); Row1D(); Row1E(); Row1F();
    QuadTabulates(ROW1C, ROW1D, ROW1E, ROW1F, 0xE0);
    Join(QUAD0, QUAD1, 0x00);
    Join(QUAD2, QUAD3, 0x40);
    Join(QUAD4, QUAD5, 0x80);
    Join(QUAD6, QUAD7, 0xC0);
    Join(QUAD0 + QUAD1, QUAD2 + QUAD3, 0x00);
    Join(QUAD4 + QUAD5, QUAD6 + QUAD7, 0x80);
    Join((QUAD0 + QUAD1) + (QUAD2 + QUAD3), (QUAD4 + QUAD5) + (QUAD6 + QUAD7), 0x00);
  }

  // ----- A table step is eight register steps

  function LowByte(x: bv32): (i: nat)
    ensures i < 256 && i as bv32 == x & 0xFF
  {
    (x & 0xFF) as nat
  }

  function DropByte(x: bv32): bv32 {
    x >> 8
  }

  lemma EightXor(a: bv32, b: bv32)
    ensures EightSteps(Xor(a, b)) == Xor(EightSteps(a), EightSteps(b))
  {
    hide BitStep, Xor;
    var a1, b1 := XorOnce(a, b);
    var a2, b2 := XorOnce(a1, b1);
    var a3, b3 := XorOnce(a2, b2);
    var a4, b4 := XorOnce(a3, b3);
    var a5, b5 := XorOnce(a4, b4);
    var a6, b6 := XorOnce(a5, b5);
    var a7, b7 := XorOnce(a6, b6);
    var a8, b8 := XorOnce(a7, b7);
  }

  lemma XorOnce(a: bv32, b: bv32) returns (a': bv32, b': bv32)
    ensures a' == BitStep(a) && b' == BitStep(b)
    ensures BitStep(Xor(a, b)) == Xor(a', b')
  {
    StepXor(a, b);
    a', b' := BitStep(a), BitStep(b);
  }

  lemma SplitByte(x: bv32)
    ensures x == Xor(x & 0xFF, DropByte(x) << 8)
  {}

  lemma HighSteps(x: bv32)
    ensures EightSteps(DropByte(x) << 8) == DropByte(x)
  {}

  lemma ShiftOutByte(crc: bv32, b: byte)
    ensures DropByte(Xor(crc, Word(b))) == DropByte(crc)
  {}

  lemma TableAt(x: bv32)
    ensures |CRC32_TAB| == 256 && CRC32_TAB[LowByte(x)] == EightSteps(x & 0xFF)
  {
    hide EightSteps, LowByte;
    TableTabulates();
    assert CRC32_TAB[LowByte(x)] == TableEntry(0 + LowByte(x));
  }

  lemma TableStep(crc: bv32, b: byte)
    ensures |CRC32_TAB| == 256
    ensures Xor(CRC32_TAB[LowByte(Xor(crc, Word(b)))], DropByte(crc)) == EightSteps(Xor(crc, Word(b)))
  {
    hide EightSteps, BitStep, Xor, Word, LowByte, DropByte, CRC32_TAB;
    var x := Xor(crc, Word(b));
    TableAt(x);
    EightXor(x & 0xFF, DropByte(x) << 8);
    SplitByte(x);
    HighSteps(x);
    ShiftOutByte(crc, b);
  }

  // ----- Up to 32 bits can be added to the register at once

  /** The register after n steps with no input. */
  function Steps(n: nat, r: bv32): bv32 {
    if n == 0 then r else Steps(n - 1, BitStep(r))
  }

  function Twice(x: bv32): bv32 {
    x << 1
  }

  /** Up to 32 bits as a word, the first bit lowest. */
  function Pack(bits: seq<bool>): bv32 {
    if bits == [] then 0 else Xor(Bit(bits[0]), Twice(Pack(bits[1..])))
  }

  function Widen(m: bv32): bv32 {
    (m << 1) | 1
  }

  function Mask(k: nat): bv32 {
    if k == 0 then 0 else Widen(Mask(k - 1))
  }

  predicate Inside(p: bv32, m: bv32) {
    p & !m == 0
  }

  predicate TopClear(p: bv32) {
    p & 0x8000_0000 == 0
  }

  lemma InsideWiden(p: bv32, m: bv32, b: bool)
    requires Inside(p, m)
    ensures Inside(Xor(Bit(b), Twice(p)), Widen(m))
    ensures Inside(Widen(p), Widen(m))
  {}

  lemma InsideTrans(p: bv32, m: bv32, n: bv32)
    requires Inside(p, m) && Inside(m, n)
    ensures Inside(p, n)
  {}

  lemma InsideZero(m: bv32)
    ensures Inside(0, m)
  {}

  lemma {:induction false} PackInside(bits: seq<bool>)
    ensures Inside(Pack(bits), Mask(|bits|))
  {
    hide Xor, Bit, Twice, Widen, Inside;
    if bits == [] {
      InsideZero(Mask(0));
    } else {
      PackInside(bits[1..]);
      InsideWiden(Pack(bits[1..]), Mask(|bits| - 1), bits[0]);
    }
  }

  lemma {:induction false} MaskGrows(k: nat)
    ensures Inside(Mask(k), Mask(k + 1))
  {
    hide Widen, Inside;
    if k == 0 {
      InsideZero(Mask(1));
    } else {
      MaskGrows(k - 1);
      InsideWiden(Mask(k - 1), Mask(k), true);
    }
  }

  lemma Mask31()
    ensures Mask(31) == 0x7FFF_FFFF
  {
    assert Mask(2) == 0x3; assert Mask(4) == 0xF; assert Mask(6) == 0x3F; assert Mask(8) == 0xFF;
    assert Mask(10) == 0x3FF; assert Mask(12) == 0xFFF; assert Mask(14) == 0x3FFF; assert Mask(16) == 0xFFFF;
    assert Mask(18) == 0x3_FFFF; assert Mask(20) == 0xF_FFFF; assert Mask(22) == 0x3F_FFFF;
      assert Mask(24) == 0xFF_FFFF;
    assert Mask(26) == 0x3FF_FFFF; assert Mask(28) == 0xFFF_FFFF; assert Mask(30) == 0x3FFF_FFFF;
  }

  lemma InsideTop(p: bv32)
    requires Inside(p, 0x7FFF_FFFF)
    ensures TopClear(p)
  {}

  lemma {:induction false} MaskTop(p: bv32, k: nat)
    requires k <= 31 && Inside(p, Mask(k))
    ensures TopClear(p)
    decreases 31 - k
  {
    hide Inside, Mask, TopClear;
    if k == 31 {
      Mask31();
      InsideTop(p);
    } else {
      MaskGrows(k);
      InsideTrans(p, Mask(k), Mask(k + 1));
      MaskTop(p, k + 1);
    }
  }

  lemma StepTwice(p: bv32)
    requires TopClear(p)
    ensures BitStep(Twice(p)) == p && (Twice(p) == 0 <==> p == 0)
  {}

  /** Feeding up to 32 bits one at a time is the same as adding them all to the register first. */
  lemma {:induction false} SerialPacked(r: bv32, bits: seq<bool>)
    requires |bits| <= 32
    ensures Serial(r, bits) == Steps(|bits|, Xor(r, Pack(bits)))
    decreases |bits|
  {
    hide BitStep, Xor, Bit, Twice, TopClear, Inside, Mask;
    if bits == [] {
      XorZero(r, r);
    } else {
      var p := Pack(bits[1..]);
      PackInside(bits[1..]);
      MaskTop(p, |bits| - 1);
      StepTwice(p);
      XorAssoc(r, Bit(bits[0]), Twice(p));
      StepXor(Xor(r, Bit(bits[0])), Twice(p));
      SerialPacked(BitStep(Xor(r, Bit(bits[0]))), bits[1..]);
    }
  }

  function And(x: bv32, m: bv32): bv32 {
    x & m
  }

  lemma AndWiden(x: bv32, m: bv32)
    ensures Xor(Bit(LowBit(x)), Twice(And(Half(x), m))) == And(x, Widen(m))
    ensures And(x, 0) == 0
  {}

  lemma {:induction false} PackBitsOf(x: bv32, n: nat)
    ensures Pack(BitsOf(x, n)) == And(x, Mask(n))
    decreases n
  {
    hide Xor, Bit, Twice, LowBit, Half, And, Widen;
    if n == 0 {
      AndWiden(x, 0);
    } else {
      assert BitsOf(x, n)[1..] == BitsOf(Half(x), n - 1);
      PackBitsOf(Half(x), n - 1);
      AndWiden(x, Mask(n - 1));
    }
  }

  lemma WordMask(b: byte)
    ensures And(Word(b), Mask(8)) == Word(b)
  {
    assert Mask(2) == 0x3; assert Mask(4) == 0xF; assert Mask(6) == 0x3F; assert Mask(8) == 0xFF;
  }

  lemma StepsEight(r: bv32)
    ensures Steps(8, r) == EightSteps(r)
  {
    hide BitStep;
    var r2 := BitStep(BitStep(r));
    var r4 := BitStep(BitStep(r2));
    var r6 := BitStep(BitStep(r4));
    assert Steps(8, r) == Steps(7, BitStep(r)) == Steps(6, r2);
    assert Steps(6, r2) == Steps(5, BitStep(r2)) == Steps(4, r4);
    assert Steps(4, r4) == Steps(3, BitStep(r4)) == Steps(2, r6);
    assert Steps(2, r6) == Steps(1, BitStep(r6)) == Steps(0, BitStep(BitStep(r6)));
  }

  lemma SerialByte(r: bv32, b: byte)
    ensures Serial(r, BitsOf(Word(b), 8)) == EightSteps(Xor(r, Word(b)))
  {
    hide EightSteps, BitStep, BitsOf, Word, Xor, And, Mask;
    SerialPacked(r, BitsOf(Word(b), 8));
    PackBitsOf(Word(b), 8);
    WordMask(b);
    StepsEight(Xor(r, Word(b)));
  }

  // ----- The program's loop

  lemma LoopStep(r: bv32, buf: seq<byte>, p: nat)
    requires p < |buf|
    ensures |CRC32_TAB| == 256
    ensures Serial(Xor(CRC32_TAB[LowByte(Xor(r, Word(buf[p])))], DropByte(r)), Bits(buf[p + 1..]))
         == Serial(r, Bits(buf[p..]))
  {
    hide EightSteps, BitStep, BitsOf, Word, Xor, LowByte, DropByte, CRC32_TAB, Serial;
    TableStep(r, buf[p]);
    SerialByte(r, buf[p]);
    SerialAppend(r, BitsOf(Word(buf[p]), 8), Bits(buf[p + 1..]));
    assert buf[p..][1..] == buf[p + 1..];
  }

  /** `crc32`: one table look-up per byte. */
  method Crc32(crc: bv32, buf: seq<byte>) returns (r: bv32)
    ensures r == Crc(crc, buf)
  {
    hide EightSteps, BitStep, BitsOf, Word, Xor, LowByte, DropByte, CRC32_TAB, Serial, Bits;
    r := Xor(crc, ONES);
    var p := 0;
    assert buf[0..] == buf;
    while p < |buf|
      invariant 0 <= p <= |buf|
      invariant Serial(r, Bits(buf[p..])) == Serial(Xor(crc, ONES), Bits(buf))
    {
      LoopStep(r, buf, p);
      r := Xor(CRC32_TAB[LowByte(Xor(r, Word(buf[p])))], DropByte(r));
      p := p + 1;
    }
    EmptySerial(r);
    assert buf[p..] == [];
    r := Xor(r, ONES);
  }

  lemma EmptySerial(r: bv32)
    ensures Serial(r, Bits([])) == r
  {
    var nothing: seq<byte> := [];
    assert Bits(nothing) == [] && Serial(r, []) == r;
  }

  // ----- Error bursts

  /** The positions where two equally long bit strings differ. */
  function Diff(a: seq<bool>, b: seq<bool>): (d: seq<bool>)
    requires |a| == |b|
    ensures |d| == |a| && forall k | 0 <= k < |a| :: d[k] <==> a[k] != b[k]
  {
    if a == [] then [] else [a[0] != b[0]] + Diff(a[1..], b[1..])
  }

  ghost predicate Quiet(bits: seq<bool>) {
    forall k | 0 <= k < |bits| :: !bits[k]
  }

  lemma {:induction false} SerialDiff(r: bv32, s: bv32, a: seq<bool>, b: seq<bool>)
    requires |a| == |b|
    ensures Xor(Serial(r, a), Serial(s, b)) == Serial(Xor(r, s), Diff(a, b))
    decreases |a|
  {
    hide Xor, BitStep, Bit;
    if a != [] {
      var r', s' := Xor(r, Bit(a[0])), Xor(s, Bit(b[0]));
      SerialDiff(BitStep(r'), BitStep(s'), a[1..], b[1..]);
      StepXor(r', s');
      XorSwap(r, Bit(a[0]), s, Bit(b[0]));
      BitXor(a[0], b[0]);
      assert Diff(a, b)[1..] == Diff(a[1..], b[1..]);
    }
  }

  lemma {:induction false} QuietSerial(r: bv32, bits: seq<bool>)
    requires Quiet(bits)
    ensures Serial(r, bits) == 0 <==> r == 0
    decreases |bits|
  {
    hide BitStep, Xor;
    if bits != [] {
      XorZero(r, r);
      StepKernel(r);
      QuietSerial(BitStep(r), bits[1..]);
    }
  }

  lemma {:induction false} StepsKernel(n: nat, r: bv32)
    ensures Steps(n, r) == 0 <==> r == 0
  {
    hide BitStep;
    if n > 0 {
      StepKernel(r);
      StepsKernel(n - 1, BitStep(r));
    }
  }

  lemma {:induction false} PackKernel(bits: seq<bool>)
    requires |bits| <= 32
    ensures Pack(bits) == 0 <==> Quiet(bits)
  {
    hide Xor, Twice, Bit, Inside, Mask, TopClear;
    if bits != [] {
      var p := Pack(bits[1..]);
      PackKernel(bits[1..]);
      PackInside(bits[1..]);
      MaskTop(p, |bits| - 1);
      StepTwice(p);
      FirstBit(bits[0], p);
      assert Quiet(bits) <==> !bits[0] && Quiet(bits[1..]) by {
        assert bits == [bits[0]] + bits[1..];
      }
    }
  }

  lemma FirstBit(b: bool, p: bv32)
    ensures Xor(Bit(b), Twice(p)) == 0 <==> !b && Twice(p) == 0
  {}

  ghost predicate WithinBurst(a: seq<bool>, b: seq<bool>, at: nat) {
    |a| == |b| && forall k | 0 <= k < |a| && !(at <= k < at + 32) :: a[k] == b[k]
  }

  lemma BurstNonzero(pre: seq<bool>, mid: seq<bool>, post: seq<bool>)
    requires Quiet(pre) && Quiet(post) && !Quiet(mid) && |mid| <= 32
    ensures Serial(0, pre + (mid + post)) != 0
  {
    hide Xor, BitStep, Serial, Pack, Quiet;
    SerialAppend(0, pre, mid + post);
    QuietSerial(0, pre);
    SerialAppend(0, mid, post);
    SerialPacked(0, mid);
    XorZero(Pack(mid), Pack(mid));
    PackKernel(mid);
    StepsKernel(|mid|, Pack(mid));
    QuietSerial(Serial(0, mid), post);
  }

  /** Two bit strings that differ, but only within 32 consecutive bits, never leave the same register,
      whatever comes before and after the burst. */
  lemma SerialBurst(r: bv32, a: seq<bool>, b: seq<bool>, at: nat)
    requires a != b && WithinBurst(a, b, at)
    ensures Serial(r, a) != Serial(r, b)
  {
    hide Xor, BitStep, Serial, Diff, Quiet;
    var pre, mid, post := DiffBurst(a, b, at);
    BurstNonzero(pre, mid, post);
    SerialDiff(r, r, a, b);
    XorZero(r, r);
    XorZero(Serial(r, a), Serial(r, b));
  }

  lemma DiffBurst(a: seq<bool>, b: seq<bool>, at: nat) returns (pre: seq<bool>, mid: seq<bool>, post: seq<bool>)
    requires a != b && WithinBurst(a, b, at)
    ensures Diff(a, b) == pre + (mid + post)
    ensures Quiet(pre) && Quiet(post) && !Quiet(mid) && |mid| <= 32
  {
    hide Diff;
    var d := Diff(a, b);
    var k :| 0 <= k < |a| && a[k] != b[k];
    pre, mid, post := Window(d, at, k);
  }

  lemma Window(d: seq<bool>, at: nat, k: nat) returns (pre: seq<bool>, mid: seq<bool>, post: seq<bool>)
    requires at <= k < |d| && k < at + 32 && d[k]
    requires forall i | 0 <= i < |d| && d[i] :: at <= i < at + 32
    ensures d == pre + (mid + post)
    ensures Quiet(pre) && Quiet(post) && !Quiet(mid) && |mid| <= 32
  {
    var hi := if at + 32 < |d| then at + 32 else |d|;
    pre, mid, post := d[..at], d[at..hi], d[hi..];
    assert mid[k - at];
  }

  lemma {:induction false} BitsInjective(a: seq<byte>, b: seq<byte>)
    requires Bits(a) == Bits(b)
    ensures a == b
  {
    hide BitsOf, Word, And, Mask, Pack;
    if a != [] {
      var x, y := BitsOf(Word(a[0]), 8), BitsOf(Word(b[0]), 8);
      assert x == Bits(a)[..8] == y;
      PackBitsOf(Word(a[0]), 8);
      PackBitsOf(Word(b[0]), 8);
      WordMask(a[0]);
      WordMask(b[0]);
      WordInjective(a[0], b[0]);
      assert Bits(a)[8..] == Bits(a[1..]) && Bits(b)[8..] == Bits(b[1..]);
      BitsInjective(a[1..], b[1..]);
    }
  }

  lemma WordInjective(a: byte, b: byte)
    ensures Word(a) == Word(b) <==> a == b
  {}

  /** Buffers that differ, but only within 32 consecutive bits, have different fingerprints. */
  lemma BurstDetected(c: bv32, a: seq<byte>, b: seq<byte>, at: nat)
    requires a != b && WithinBurst(Bits(a), Bits(b), at)
    ensures Crc(c, a) != Crc(c, b)
  {
    hide Xor, Serial, Bits, WithinBurst;
    if Bits(a) == Bits(b) {
      BitsInjective(a, b);
      assert false;
    }
    SerialBurst(Xor(c, ONES), Bits(a), Bits(b), at);
    XorTwice(Serial(Xor(c, ONES), Bits(a)), ONES);
    XorTwice(Serial(Xor(c, ONES), Bits(b)), ONES);
  }

  /** Four consecutive bytes: any corruption between a prefix and a suffix is detected. */
  lemma FourBytesDetected(c: bv32, pre: seq<byte>, x: seq<byte>, y: seq<byte>, post: seq<byte>)
    requires |x| == |y| <= 4 && x != y
    ensures Crc(c, pre + x + post) != Crc(c, pre + y + post)
  {
    hide Crc, Bits;
    BitsAppend(pre + x, post);
    BitsAppend(pre, x);
    BitsAppend(pre + y, post);
    BitsAppend(pre, y);
    assert (pre + x + post)[|pre|..|pre| + |x|] == x && (pre + y + post)[|pre|..|pre| + |x|] == y;
    BurstDetected(c, pre + x + post, pre + y + post, 8 * |pre|);
  }

  // Five bytes whose bits are those of the generator polynomial, and five zeros
  const POLYNOMIAL: seq<byte> := [0x41, 0x06, 0x71, 0xDB, 0x01]
  const ZEROS: seq<byte> := [0, 0, 0, 0, 0]

  /** The bound of 32 is exact: buffers that differ within 33 consecutive bits, between any prefix and suffix, can have
      the same fingerprint. */
  lemma Burst33Undetected(c: bv32, pre: seq<byte>, post: seq<byte>)
    ensures Crc(c, pre + POLYNOMIAL + post) == Crc(c, pre + ZEROS + post)
    ensures pre + POLYNOMIAL + post != pre + ZEROS + post
    ensures Bits(POLYNOMIAL)[33..] == Bits(ZEROS)[33..]
  {
    hide Xor, BitStep, Serial, Bits, EightSteps;
    BitsAppend(pre + POLYNOMIAL, post);
    BitsAppend(pre, POLYNOMIAL);
    BitsAppend(pre + ZEROS, post);
    BitsAppend(pre, ZEROS);
    var r := Xor(c, ONES);
    var x, z, p, q := Bits(POLYNOMIAL), Bits(ZEROS), Bits(pre), Bits(post);
    SerialAppend(r, p + x, q);
    SerialAppend(r, p, x);
    SerialAppend(r, p + z, q);
    SerialAppend(r, p, z);
    SameRegister(Serial(r, p));
    assert (pre + POLYNOMIAL + post)[|pre|] != (pre + ZEROS + post)[|pre|];
    LastBits();
  }

  lemma SameRegister(r: bv32)
    ensures Serial(r, Bits(POLYNOMIAL)) == Serial(r, Bits(ZEROS))
  {
    hide Xor, BitStep, Serial, Bits, EightSteps;
    var x, z := Bits(POLYNOMIAL), Bits(ZEROS);
    SerialFive(0x41, 0x06, 0x71, 0xDB, 0x01);
    SerialFive(0, 0, 0, 0, 0);
    FiveSteps();
    SerialDiff(0, 0, x, z);
    SerialDiff(r, r, x, z);
    XorZero(r, r);
    XorZero(0, 0);
    XorZero(Serial(0, x), Serial(0, z));
    XorZero(Serial(r, x), Serial(r, z));
  }

  lemma SerialFive(b0: byte, b1: byte, b2: byte, b3: byte, b4: byte)
    ensures Serial(0, Bits([b0, b1, b2, b3, b4])) == Five(b0, b1, b2, b3, b4)
  {
    hide Xor, BitStep, Serial, Bits, EightSteps, Word;
    SerialNext(0, [b0, b1, b2, b3, b4]);
    SerialNext(After(0, b0), [b1, b2, b3, b4]);
    SerialNext(After(After(0, b0), b1), [b2, b3, b4]);
    SerialNext(After(After(After(0, b0), b1), b2), [b3, b4]);
    SerialNext(After(After(After(After(0, b0), b1), b2), b3), [b4]);
    EmptySerial(Five(b0, b1, b2, b3, b4));
    assert [b0, b1, b2, b3, b4][1..] == [b1, b2, b3, b4] && [b1, b2, b3, b4][1..] == [b2, b3, b4];
    assert [b2, b3, b4][1..] == [b3, b4] && [b3, b4][1..] == [b4] && [b4][1..] == [];
  }

  function After(r: bv32, b: byte): bv32 {
    EightSteps(Xor(r, Word(b)))
  }

  function Five(b0: byte, b1: byte, b2: byte, b3: byte, b4: byte): bv32 {
    After(After(After(After(After(0, b0), b1), b2), b3), b4)
  }

  lemma SerialNext(r: bv32, buf: seq<byte>)
    requires buf != []
    ensures Serial(r, Bits(buf)) == Serial(After(r, buf[0]), Bits(buf[1..]))
  {
    hide Xor, BitStep, Serial, BitsOf, EightSteps, Word;
    SerialByte(r, buf[0]);
    SerialAppend(r, BitsOf(Word(buf[0]), 8), Bits(buf[1..]));
  }

  // The registers in between
  const REGISTER1: bv32 := 0x01DB7106
  const REGISTER2: bv32 := 0x0001DB71
  const REGISTER3: bv32 := 0x000001DB
  const REGISTER4: bv32 := 0x00000001

  lemma After1() ensures After(0, 0x41) == REGISTER1 {}
  lemma After2() ensures After(REGISTER1, 0x06) == REGISTER2 {}
  lemma After3() ensures After(REGISTER2, 0x71) == REGISTER3 {}
  lemma After4() ensures After(REGISTER3, 0xDB) == REGISTER4 {}
  lemma After5() ensures After(REGISTER4, 0x01) == 0 {}
  lemma AfterNone() ensures After(0, 0) == 0 {}

  lemma FiveSteps()
    ensures Five(0x41, 0x06, 0x71, 0xDB, 0x01) == 0 == Five(0, 0, 0, 0, 0)
  {
    hide After;
    After1();
    After2();
    After3();
    After4();
    After5();
    AfterNone();
  }

  lemma LastBits()
    ensures Bits(POLYNOMIAL)[33..] == Bits(ZEROS)[33..]
  {
    BitsAppend(POLYNOMIAL[..4], [1]);
    BitsAppend(ZEROS[..4], [0]);
    assert POLYNOMIAL == POLYNOMIAL[..4] + [1] && ZEROS == ZEROS[..4] + [0];
    OneBit();
    assert Bits(POLYNOMIAL)[32..] == Bits([1]) && Bits(ZEROS)[32..] == Bits([0]);
    assert Bits(POLYNOMIAL)[33..] == Bits([1])[1..] && Bits(ZEROS)[33..] == Bits([0])[1..];
  }

  lemma OneBit()
    ensures Bits([1])[1..] == Bits([0])[1..]
  {
    assert Bits([1]) == BitsOf(1, 8) + Bits([]) && Bits([0]) == BitsOf(0, 8) + Bits([]);
    assert BitsOf(1, 8)[1..] == BitsOf(Half(1), 7) && BitsOf(0, 8)[1..] == BitsOf(Half(0), 7);
  }

  // ----- The conditioning of the register

  function Low(x: bv32): byte {
    (x & 0xFF) as byte
  }

  /** The four bytes of a word, the lowest first. */
  function LittleEndian(x: bv32): seq<byte> {
    [Low(x), Low(DropByte(x)), Low(DropByte(DropByte(x))), Low(DropByte(DropByte(DropByte(x))))]
  }

  lemma LowWord(x: bv32)
    ensures Word(Low(x)) == x & 0xFF
  {}

  /** A register that contains a word, and is fed the lowest byte of that word. */
  lemma FedByte(e: bv32, x: bv32)
    ensures After(Xor(e, x), Low(x)) == Xor(EightSteps(e), DropByte(x))
  {
    hide EightSteps, Xor, Word, DropByte, Low;
    LowWord(x);
    var high := DropByte(x) << 8;
    SplitByte(x);
    XorComm(x & 0xFF, high);
    XorAssoc(e, x, x & 0xFF);
    XorTwice(high, x & 0xFF);
    EightXor(e, high);
    HighSteps(x);
  }

  lemma DroppedAll(x: bv32)
    ensures DropByte(DropByte(DropByte(DropByte(x)))) == 0
  {}

  lemma FedWord(e: bv32, x: bv32)
    ensures Serial(Xor(e, x), Bits(LittleEndian(x))) == EightSteps(EightSteps(EightSteps(EightSteps(e))))
  {
    hide EightSteps, Xor, Word, DropByte, Low, Serial, Bits, After;
    var x1 := DropByte(x);
    var x2 := DropByte(x1);
    var x3 := DropByte(x2);
    FedByte(e, x);
    FedByte(EightSteps(e), x1);
    FedByte(EightSteps(EightSteps(e)), x2);
    FedByte(EightSteps(EightSteps(EightSteps(e))), x3);
    var bytes := LittleEndian(x);
    assert bytes[1..] == [Low(x1), Low(x2), Low(x3)] && bytes[1..][1..] == [Low(x2), Low(x3)];
    assert bytes[1..][1..][1..] == [Low(x3)] && bytes[1..][1..][1..][1..] == [];
    SerialNext(Xor(e, x), bytes);
    SerialNext(Xor(EightSteps(e), x1), bytes[1..]);
    SerialNext(Xor(EightSteps(EightSteps(e)), x2), bytes[1..][1..]);
    SerialNext(Xor(EightSteps(EightSteps(EightSteps(e))), x3), bytes[1..][1..][1..]);
    DroppedAll(x);
    XorNone(EightSteps(EightSteps(EightSteps(EightSteps(e)))));
    EmptySerial(EightSteps(EightSteps(EightSteps(EightSteps(e)))));
  }

  // The registers in between
  const ONES1: bv32 := 0x2DFD1072
  const ONES2: bv32 := 0xBE26ED00
  const ONES3: bv32 := 0x00BE26ED
  const ONES4: bv32 := 0xDEBB20E3

  lemma Ones1() ensures EightSteps(ONES) == ONES1 {}
  lemma Ones2() ensures EightSteps(ONES1) == ONES2 {}
  lemma Ones3() ensures EightSteps(ONES2) == ONES3 {}
  lemma Ones4() ensures EightSteps(ONES3) == ONES4 {}
  lemma Complement() ensures Xor(ONES4, ONES) == 0x2144DF1C {}

  /** The register is inverted before and after: a buffer followed by its own fingerprint always has the same one, the
      residue of the standard. */
  lemma Residue(c: bv32, buf: seq<byte>)
    ensures Crc(c, buf + LittleEndian(Crc(c, buf))) == 0x2144DF1C
  {
    hide EightSteps, Xor, Serial, Bits, LittleEndian;
    var r, x := Serial(Xor(c, ONES), Bits(buf)), Crc(c, buf);
    BitsAppend(buf, LittleEndian(x));
    SerialAppend(Xor(c, ONES), Bits(buf), Bits(LittleEndian(x)));
    XorComm(ONES, x);
    XorTwice(r, ONES);
    FedWord(ONES, x);
    Ones1();
    Ones2();
    Ones3();
    Ones4();
    Complement();
  }

  lemma {:induction false} SerialBytes(r: bv32, buf: seq<byte>)
    ensures Serial(r, Bits(buf)) == Fed(r, buf)
    decreases |buf|
  {
    hide Serial, Bits, After;
    if buf == [] {
      EmptySerial(r);
    } else {
      SerialNext(r, buf);
      SerialBytes(After(r, buf[0]), buf[1..]);
    }
  }

  /** The register after some bytes. */
  function Fed(r: bv32, buf: seq<byte>): bv32
    decreases |buf|
  {
    if buf == [] then r else Fed(After(r, buf[0]), buf[1..])
  }

  // The check value of the standard is the fingerprint of the digits from 1 to 9; the registers in between
  const DIGITS: seq<byte> := [0x31, 0x32, 0x33, 0x34, 0x35, 0x36, 0x37, 0x38, 0x39]

  lemma Digit1() ensures After(ONES, 0x31) == 0x7C231048 {}
  lemma Digit2() ensures After(0x7C231048, 0x32) == 0xB0ACBB32 {}
  lemma Digit3() ensures After(0xB0ACBB32, 0x33) == 0x77B79C2D {}
  lemma Digit4() ensures After(0x77B79C2D, 0x34) == 0x641C1F5C {}
  lemma Digit5() ensures After(0x641C1F5C, 0x35) == 0x340AC5E3 {}
  lemma Digit6() ensures After(0x340AC5E3, 0x36) == 0xF68D2C9E {}
  lemma Digit7() ensures After(0xF68D2C9E, 0x37) == 0xAFFC9660 {}
  lemma Digit8() ensures After(0xAFFC9660, 0x38) == 0x651F2550 {}
  lemma Digit9() ensures After(0x651F2550, 0x39) == 0x340BC6D9 {}
  lemma FromOnes() ensures Xor(0, ONES) == ONES && Xor(0x340BC6D9, ONES) == 0xCBF43926 {}

  lemma FedDigits()
    ensures Fed(ONES, DIGITS) == 0x340BC6D9
  {
    hide After;
    Digit1();
    Digit2();
    Digit3();
    Digit4();
    Digit5();
    Digit6();
    Digit7();
    Digit8();
    Digit9();
    assert Fed(ONES, DIGITS) == Fed(0xB0ACBB32, DIGITS[1..][1..]);
    assert DIGITS[1..][1..] == [0x33, 0x34, 0x35, 0x36, 0x37, 0x38, 0x39];
    assert Fed(0xB0ACBB32, [0x33, 0x34, 0x35, 0x36, 0x37, 0x38, 0x39])
        == Fed(0x641C1F5C, [0x35, 0x36, 0x37, 0x38, 0x39]);
    assert Fed(0x641C1F5C, [0x35, 0x36, 0x37, 0x38, 0x39]) == Fed(0xF68D2C9E, [0x37, 0x38, 0x39]);
    assert Fed(0xF68D2C9E, [0x37, 0x38, 0x39]) == Fed(0x651F2550, [0x39]) == Fed(0x340BC6D9, []);
  }

  lemma CheckValue()
    ensures Crc(0, DIGITS) == 0xCBF43926
  {
    hide Xor, Serial, Bits, Fed;
    FromOnes();
    SerialBytes(ONES, DIGITS);
    FedDigits();
  }
}
