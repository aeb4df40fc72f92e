/** The hash with the secret and the word operations of the machine. */
module Xxh3Machine {
  import opened Words
  import opened Xxh3Spec
  import opened Xxh3Code

  const ROW_0: Bytes := [0xb8, 0xfe, 0x6c, 0x39, 0x23, 0xa4, 0x4b, 0xbe, 0x7c, 0x01, 0x81, 0x2c, 0xf7, 0x21, 0xad, 0x1c]
  const ROW_1: Bytes := [0xde, 0xd4, 0x6d, 0xe9, 0x83, 0x90, 0x97, 0xdb, 0x72, 0x40, 0xa4, 0xa4, 0xb7, 0xb3, 0x67, 0x1f]
  const ROW_2: Bytes := [0xcb, 0x79, 0xe6, 0x4e, 0xcc, 0xc0, 0xe5, 0x78, 0x82, 0x5a, 0xd0, 0x7d, 0xcc, 0xff, 0x72, 0x21]
  const ROW_3: Bytes := [0xb8, 0x08, 0x46, 0x74, 0xf7, 0x43, 0x24, 0x8e, 0xe0, 0x35, 0x90, 0xe6, 0x81, 0x3a, 0x26, 0x4c]
  const ROW_4: Bytes := [0x3c, 0x28, 0x52, 0xbb, 0x91, 0xc3, 0x00, 0xcb, 0x88, 0xd0, 0x65, 0x8b, 0x1b, 0x53, 0x2e, 0xa3]
  const ROW_5: Bytes := [0x71, 0x64, 0x48, 0x97, 0xa2, 0x0d, 0xf9, 0x4e, 0x38, 0x19, 0xef, 0x46, 0xa9, 0xde, 0xac, 0xd8]
  const ROW_6: Bytes := [0xa8, 0xfa, 0x76, 0x3f, 0xe3, 0x9c, 0x34, 0x3f, 0xf9, 0xdc, 0xbb, 0xc7, 0xc7, 0x0b, 0x4f, 0x1d]
  const ROW_7: Bytes := [0x8a, 0x51, 0xe0, 0x4b, 0xcd, 0xb4, 0x59, 0x31, 0xc8, 0x9f, 0x7e, 0xc9, 0xd9, 0x78, 0x73, 0x64]
  const ROW_8: Bytes := [0xea, 0xc5, 0xac, 0x83, 0x34, 0xd3, 0xeb, 0xc3, 0xc5, 0x81, 0xa0, 0xff, 0xfa, 0x13, 0x63, 0xeb]
  const ROW_9: Bytes := [0x17, 0x0d, 0xdd, 0x51, 0xb7, 0xf0, 0xda, 0x49, 0xd3, 0x16, 0x55, 0x26, 0x29, 0xd4, 0x68, 0x9e]
  const ROW_10: Bytes := [0x2b, 0x16, 0xbe, 0x58, 0x7d, 0x47, 0xa1, 0xfc, 0x8f, 0xf8, 0xb8, 0xd1, 0x7a, 0xd0, 0x31, 0xce]
  const ROW_11: Bytes := [0x45, 0xcb, 0x3a, 0x8f, 0x95, 0x16, 0x04, 0x28, 0xaf, 0xd7, 0xfb, 0xca, 0xbb, 0x4b, 0x40, 0x7e]

  const SECRET: Bytes :=
    ROW_0 + ROW_1 + ROW_2 + ROW_3 + ROW_4 + ROW_5 + ROW_6 + ROW_7 + ROW_8 + ROW_9 + ROW_10 + ROW_11

  lemma ModSum(x: int, y: int, z: int)
    ensures (z + (x + y) % TWO_64) % TWO_64 == (z + x + y) % TWO_64
  {
  }

  lemma AddHighMeans(h: u64, x: u64)
    ensures AddHigh(h, x) as int == (h as int + x as int + (x as int % TWO_32) * 0x85EBCA76) % TWO_64
  {
    var p := Mult32to64(x, PRIME32_2 - 1);
    assert Low32(PRIME32_2 - 1) == 0x85EBCA76;
    assert p as int == (x as int % TWO_32) * 0x85EBCA76;
    ModSum(x as int, p as int, h as int);
  }

  /** What the machine's operations are, in integers and bits. */
  lemma MachineMeans(a: u64, b: u64)
    ensures MACHINE.xor(a, b) as bv64 == (a as bv64) ^ (b as bv64)
    ensures MACHINE.add(a, b) as int == (a as int + b as int) % TWO_64
    ensures MACHINE.sub(a, b) as int == (a as int - b as int) % TWO_64
    ensures MACHINE.mul(a, b) as int == (a as int * b as int) % TWO_64
    ensures MACHINE.mul32(a, b) as int == (a as int % TWO_32) * (b as int % TWO_32)
    ensures MACHINE.product(a, b).low as int + TWO_64 * MACHINE.product(a, b).high as int == a as int * b as int
    ensures MACHINE.fold(a, b) == MACHINE.xor(MACHINE.product(a, b).low, MACHINE.product(a, b).high)
    ensures MACHINE.addHigh(a, b) as int == (a as int + b as int + (b as int % TWO_32) * 0x85EBCA76) % TWO_64
  {
    AddHighMeans(a, b);
  }

  /** `simplified_XXH3_128bits`. */
  method Simplified128bits(data: Bytes, wide: bool) returns (h: U128, ghost seen: set<int>)
    requires |data| < TWO_64
    ensures |SECRET| == SECRET_SIZE && h == Xxh3(MACHINE, data, SECRET) && seen == Span(0, |data|)
  {
    var input := new Reader(data);
    MachineArith();
    h := Hash(MACHINE, input, SECRET, wide);
    seen := input.seen;
  }
}
