/** XXH3-128 as a function of the input, after the "XXH3 Algorithm Overview" of the xxHash specification. */
module Xxh3Spec {
  import opened Words

  const SECRET_SIZE: nat := 192
  const PRIME32_1: u64 := 0x9E3779B1
  const PRIME32_2: u64 := 0x85EBCA77
  const PRIME32_3: u64 := 0xC2B2AE3D
  const PRIME64_1: u64 := 0x9E3779B185EBCA87
  const PRIME64_2: u64 := 0xC2B2AE3D27D4EB4F
  const PRIME64_3: u64 := 0x165667B19E3779F9
  const PRIME64_4: u64 := 0x85EBCA77C2B2AE63
  const PRIME64_5: u64 := 0x27D4EB2F165667C5
  const PRIME_MX1: u64 := 0x165667919E3779F9
  const PRIME_MX2: u64 := 0x9FB21C651E98DF25

  const LANES: nat := 8
  const STRIPE: nat := 64
  const STRIPES_PER_BLOCK: nat := 16
  const BLOCK: nat := 1024

  type Bytes = seq<u8>

  // ----- little-endian words

  function Pow256(n: nat): nat {
    if n == 0 then 1 else 256 * Pow256(n - 1)
  }

  /** The number whose `n` base-256 digits, least first, are the bytes at `o`. */
  function Le(s: Bytes, o: nat, n: nat): nat
    requires o + n <= |s|
    decreases |s|, n
  {
    if n == 0 then 0 else s[o] as int + 256 * Le(s, o + 1, n - 1)
  }

  lemma {:induction false} LeBound(s: Bytes, o: nat, n: nat)
    requires o + n <= |s|
    ensures Le(s, o, n) < Pow256(n)
    decreases n
  {
    if n > 0 {
      LeBound(s, o + 1, n - 1);
    }
  }

  lemma PowersUsed()
    ensures Pow256(4) == TWO_32 && Pow256(8) == TWO_64
  {
    assert Pow256(2) == 65536;
    assert Pow256(6) == 65536 * Pow256(4);
  }

  function Le64(s: Bytes, o: nat): u64
    requires o + 8 <= |s|
  {
    LeBound(s, o, 8);
    PowersUsed();
    Le(s, o, 8) as u64
  }

  function Le32(s: Bytes, o: nat): u64
    requires o + 4 <= |s|
  {
    LeBound(s, o, 4);
    PowersUsed();
    Le(s, o, 4) as u64
  }

  lemma Spread(x: int, low: int, p: int, high: int)
    ensures x + 256 * (low + p * high) == (x + 256 * low) + (256 * p) * high
  {
  }

  lemma {:induction false} LeSplits(s: Bytes, o: nat, m: nat, n: nat)
    requires o + m + n <= |s|
    ensures Le(s, o, m + n) == Le(s, o, m) + Pow256(m) * Le(s, o + m, n)
    decreases m
  {
    if m > 0 {
      LeSplits(s, o + 1, m - 1, n);
      Spread(s[o] as int, Le(s, o + 1, m - 1), Pow256(m - 1), Le(s, o + m, n));
    }
  }

  // ----- mixing

  /** The word operations the hash is made of. They are a parameter, so that what is proved about the order of
      reads and rounds does not depend on them; `MACHINE` holds the operations of the machine. */
  datatype Arith = Arith(
    xor: (u64, u64) -> u64,
    add: (u64, u64) -> u64,
    sub: (u64, u64) -> u64,
    mul: (u64, u64) -> u64,
    mul32: (u64, u64) -> u64,
    product: (u64, u64) -> U128,
    fold: (u64, u64) -> u64,
    addHigh: (u64, u64) -> u64,
    word: (Bytes, nat) -> u64)

  const MACHINE := Arith(Xor, Add, Sub, Mul, Mult32to64, Mult64to128, MulFold, AddHigh, WordAt)

  /** The little-endian word at `o`. */
  function WordAt(s: Bytes, o: nat): u64 {
    if o + 8 <= |s| then Le64(s, o) else 0
  }

  /** `XXH3_mul128_fold64`. */
  function MulFold(a: u64, b: u64): u64 {
    var p := Mult64to128(a, b);
    Xor(p.low, p.high)
  }

  /** The high word for inputs of 9 to 16 bytes, as 64-bit machines compute it. */
  function AddHigh(h: u64, x: u64): u64 {
    Add(h, Add(x, Mult32to64(x, PRIME32_2 - 1)))
  }

  function XorShift(w: Arith, v: u64, power: u64): u64
    requires power > 0
  {
    w.xor(v, v / power)
  }

  const P3: u64 := 8
  const P28: u64 := 0x1000_0000
  const P29: u64 := 0x2000_0000
  const P32: u64 := 0x1_0000_0000
  const P33: u64 := 0x2_0000_0000
  const P35: u64 := 0x8_0000_0000
  const P37: u64 := 0x20_0000_0000
  const P47: u64 := 0x8000_0000_0000

  function Avalanche(w: Arith, h: u64): u64 {
    XorShift(w, w.mul(XorShift(w, h, P37), PRIME_MX1), P32)
  }

  function Avalanche64(w: Arith, h: u64): u64 {
    XorShift(w, w.mul(XorShift(w, w.mul(XorShift(w, h, P33), PRIME64_2), P29), PRIME64_3), P32)
  }

  function Mix16(w: Arith, s: Bytes, o: nat, secret: Bytes, so: nat): u64
  {
    w.fold(w.xor(w.word(s, o), w.word(secret, so)), w.xor(w.word(s, o + 8), w.word(secret, so + 8)))
  }

  function Mix32(w: Arith, acc: U128, s: Bytes, o1: nat, o2: nat, secret: Bytes, so: nat): U128
  {
    U128(w.xor(w.add(acc.low, Mix16(w, s, o1, secret, so)), w.add(w.word(s, o2), w.word(s, o2 + 8))),
         w.xor(w.add(acc.high, Mix16(w, s, o2, secret, so + 16)), w.add(w.word(s, o1), w.word(s, o1 + 8))))
  }

  function Finish(w: Arith, acc: U128, len: u64): U128 {
    U128(Avalanche(w, w.add(acc.low, acc.high)),
         w.sub(0, Avalanche(w, w.add(w.add(w.mul(acc.low, PRIME64_1), w.mul(acc.high, PRIME64_4)),
                                     w.mul(len, PRIME64_2)))))
  }

  // ----- up to 16 bytes

  /** The bytes of a word, the last first. */
  function Swap32(x: u64): u64
    requires x as int < TWO_32
  {
    (x % 0x100) * 0x100_0000 + (x / 0x100 % 0x100) * 0x1_0000 + (x / 0x1_0000 % 0x100) * 0x100 + x / 0x100_0000
  }

  function Rotl32By13(x: u64): u64
    requires x as int < TWO_32
  {
    (x * 0x2000) % P32 + x / 0x8_0000
  }

  function Swap64(x: u64): u64 {
    Swap32(x % P32) * P32 + Swap32(x / P32)
  }

  function HashEmpty(w: Arith, secret: Bytes): U128
    requires |secret| == SECRET_SIZE
  {
    U128(Avalanche64(w, w.xor(0, w.xor(w.word(secret, 64), w.word(secret, 72)))),
         Avalanche64(w, w.xor(0, w.xor(w.word(secret, 80), w.word(secret, 88)))))
  }

  lemma Digits(x: int, a: int, b: int, c: int, d: int)
    requires 0 <= a < 256 && 0 <= b < 256 && 0 <= c < 256 && 0 <= d < 256
    requires x == a + b * 0x100 + c * 0x1_0000 + d * 0x100_0000
    ensures x % 0x100 == a && x / 0x100 % 0x100 == b && x / 0x1_0000 % 0x100 == c && x / 0x100_0000 == d
  {
    assert x / 0x100 == b + c * 0x100 + d * 0x1_0000;
    assert x / 0x1_0000 == c + d * 0x100;
  }

  /** Swapping is reading the bytes in the other direction. */
  lemma SwapReverses(a: u8, b: u8, c: u8, d: u8)
    ensures Le32([a, b, c, d], 0) as int < TWO_32
    ensures Swap32(Le32([a, b, c, d], 0)) == Le32([d, c, b, a], 0)
  {
    var x, y := Le32([a, b, c, d], 0), Le32([d, c, b, a], 0);
    LeOfFour([a, b, c, d], 0);
    LeOfFour([d, c, b, a], 0);
    Digits(x as int, a as int, b as int, c as int, d as int);
    SwapOfDigits(x, a as u64, b as u64, c as u64, d as u64);
  }

  lemma SwapOfDigits(x: u64, a: u64, b: u64, c: u64, d: u64)
    requires x as int < TWO_32
    requires x % 0x100 == a && x / 0x100 % 0x100 == b && x / 0x1_0000 % 0x100 == c && x / 0x100_0000 == d
    ensures Swap32(x) == a * 0x100_0000 + b * 0x1_0000 + c * 0x100 + d
  {
  }

  lemma LeOfFour(s: Bytes, o: nat)
    requires o + 4 <= |s|
    ensures Le(s, o, 4) ==
      s[o] as int + s[o + 1] as int * 0x100 + s[o + 2] as int * 0x1_0000 + s[o + 3] as int * 0x100_0000
  {
    assert Le(s, o + 4, 0) == 0;
    assert Le(s, o + 3, 1) == s[o + 3] as int;
    assert Le(s, o + 2, 2) == s[o + 2] as int + 256 * Le(s, o + 3, 1);
  }

  /** The same for eight bytes. */
  lemma Swap64Reverses(a: u8, b: u8, c: u8, d: u8, e: u8, f: u8, g: u8, h: u8)
    ensures Swap64(Le64([a, b, c, d, e, f, g, h], 0)) == Le64([h, g, f, e, d, c, b, a], 0)
  {
    HalvesOfEight([a, b, c, d, e, f, g, h], [a, b, c, d], [e, f, g, h]);
    HalvesOfEight([h, g, f, e, d, c, b, a], [h, g, f, e], [d, c, b, a]);
    SwapReverses(a, b, c, d);
    SwapReverses(e, f, g, h);
  }

  lemma HalvesOfEight(s: Bytes, low: Bytes, high: Bytes)
    requires |s| == 8 && low == s[..4] && high == s[4..]
    ensures Le64(s, 0) % P32 == Le32(low, 0) && Le64(s, 0) / P32 == Le32(high, 0)
  {
    LeSplits(s, 0, 4, 4);
    PowersUsed();
    SameDigits(s, 0, low);
    SameDigits(s, 4, high);
    LeBound(low, 0, 4);
  }

  lemma SameDigits(s: Bytes, o: nat, t: Bytes)
    requires o + 4 <= |s| && |t| == 4 && s[o..o + 4] == t
    ensures Le(s, o, 4) == Le(t, 0, 4)
  {
    LeOfFour(s, o);
    LeOfFour(t, 0);
    assert forall i | 0 <= i < 4 :: t[i] == s[o..o + 4][i];
  }

  /** A rotation to the left by 13 bits: the high 13 bits become the low ones. */
  lemma RotlMovesBits(x: u64)
    requires x as int < TWO_32
    ensures Rotl32By13(x) % 0x2000 == x / 0x8_0000 && Rotl32By13(x) / 0x2000 == x % 0x8_0000
  {
    var high, low := x / 0x8_0000, x % 0x8_0000;
    assert x * 0x2000 == high * P32 + low * 0x2000;
    assert (x * 0x2000) % P32 == low * 0x2000;
  }

  /** The first, middle and last byte and the length, packed into 32 bits. */
  function Combined(c1: u8, c2: u8, c3: u8, len: nat): (x: u64)
    requires len < 256
    ensures x as int < TWO_32
  {
    c3 as u64 + 0x100 * len as u64 + 0x1_0000 * c1 as u64 + 0x100_0000 * c2 as u64
  }

  function Hash1to3(w: Arith, s: Bytes, secret: Bytes): U128
    requires 1 <= |s| <= 3 && |secret| == SECRET_SIZE
  {
    var x := Combined(s[0], s[|s| / 2], s[|s| - 1], |s|);
    U128(Avalanche64(w, w.xor(x, w.xor(Le32(secret, 0), Le32(secret, 4)))),
         Avalanche64(w, w.xor(Rotl32By13(Swap32(x)), w.xor(Le32(secret, 8), Le32(secret, 12)))))
  }

  function Mix4to8(w: Arith, lo: u64, hi: u64, len: nat, secret: Bytes): U128
    requires lo as int < TWO_32 && hi as int < TWO_32 && len <= 8 && |secret| == SECRET_SIZE
  {
    var keyed := w.xor(lo + hi * P32, w.xor(w.word(secret, 16), w.word(secret, 24)));
    var m := w.product(keyed, PRIME64_1 + 4 * len as u64);
    var high := w.add(m.high, w.mul(m.low, 2));
    var low := w.xor(m.low, high / P3);
    U128(XorShift(w, w.mul(XorShift(w, low, P35), PRIME_MX2), P28), Avalanche(w, high))
  }

  function Hash4to8(w: Arith, s: Bytes, secret: Bytes): U128
    requires 4 <= |s| <= 8 && |secret| == SECRET_SIZE
  {
    Le32Small(s, 0);
    Le32Small(s, |s| - 4);
    Mix4to8(w, Le32(s, 0), Le32(s, |s| - 4), |s|, secret)
  }

  lemma Le32Small(s: Bytes, o: nat)
    requires o + 4 <= |s|
    ensures Le32(s, o) as int < TWO_32
  {
    LeBound(s, o, 4);
    PowersUsed();
  }

  function Mix9to16(w: Arith, lo: u64, hi: u64, len: nat, secret: Bytes): U128
    requires 1 <= len <= 16 && |secret| == SECRET_SIZE
  {
    var m := w.product(w.xor(w.xor(lo, hi), w.xor(w.word(secret, 32), w.word(secret, 40))), PRIME64_1);
    var x := w.xor(hi, w.xor(w.word(secret, 48), w.word(secret, 56)));
    var low := w.add(m.low, (len - 1) as u64 * 0x40_0000_0000_0000);
    var high := w.addHigh(m.high, x);
    var h := w.product(w.xor(low, Swap64(high)), PRIME64_2);
    U128(Avalanche(w, h.low), Avalanche(w, w.add(h.high, w.mul(high, PRIME64_2))))
  }

  function Hash9to16(w: Arith, s: Bytes, secret: Bytes): U128
    requires 9 <= |s| <= 16 && |secret| == SECRET_SIZE
  {
    Mix9to16(w, w.word(s, 0), w.word(s, |s| - 8), |s|, secret)
  }

  // ----- 17 to 128 bytes: rounds from the outside in, last round first

  function InwardRounds(w: Arith, acc: U128, s: Bytes, secret: Bytes, n: nat): U128
    requires 16 * n <= |s|
    decreases |s|, n
  {
    if n == 0 then acc
    else InwardRounds(w, Mix32(w, acc, s, 16 * (n - 1), |s| - 16 * n, secret, 32 * (n - 1)), s, secret, n - 1)
  }

  function Rounds17(len: nat): nat
    requires len > 0
  {
    (len - 1) / 32 + 1
  }

  function Start(w: Arith, len: nat): U128
    requires len < TWO_64
  {
    U128(w.mul(len as u64, PRIME64_1), 0)
  }

  function Hash17to128(w: Arith, s: Bytes, secret: Bytes): U128
    requires 17 <= |s| <= 128 && |secret| == SECRET_SIZE
  {
    Finish(w, InwardRounds(w, Start(w, |s|), s, secret, Rounds17(|s|)), |s| as u64)
  }

  // ----- 129 to 240 bytes: rounds over the 32-byte segments, in order

  /** The rounds `first` to `n - 1`; the secret advances by 32 bytes a round from `base`. */
  function OnwardRounds(w: Arith, acc: U128, s: Bytes, secret: Bytes, base: nat, first: nat, n: nat): U128
    requires first <= n
    decreases |s|, n - first
  {
    if n == first then acc
    else
      Mix32(w, OnwardRounds(w, acc, s, secret, base, first, n - 1), s, 32 * (n - 1), 32 * (n - 1) + 16, secret,
            base + 32 * (n - 1 - first))
  }

  function Hash129to240(w: Arith, s: Bytes, secret: Bytes): U128
    requires 129 <= |s| <= 240 && |secret| == SECRET_SIZE
  {
    var a := OnwardRounds(w, Start(w, |s|), s, secret, 0, 0, 4);
    var b := OnwardRounds(w, U128(Avalanche(w, a.low), Avalanche(w, a.high)), s, secret, 3, 4, |s| / 32);
    Finish(w, Mix32(w, b, s, |s| - 16, |s| - 32, secret, 103), |s| as u64)
  }

  // ----- more than 240 bytes: eight lanes

  type Lanes = a: seq<u64> | |a| == LANES witness [0, 0, 0, 0, 0, 0, 0, 0]

  /** The neighbour of a lane. */
  function Mate(i: nat): (j: nat)
    ensures i < LANES ==> j < LANES
  {
    if i % 2 == 0 then i + 1 else i - 1
  }

  function Key(w: Arith, s: Bytes, o: nat, secret: Bytes, so: nat, i: nat): u64
  {
    w.xor(w.word(s, o + 8 * i), w.word(secret, so + 8 * i))
  }

  function HalvesProduct(w: Arith, k: u64): u64 {
    w.mul32(Low32(k), High32(k))
  }

  /** One stripe: every lane takes the data of its neighbour and the product of the halves of its own keyed data. */
  function Lane(w: Arith, a: u64, s: Bytes, o: nat, secret: Bytes, so: nat, i: nat): u64
    requires i < LANES
  {
    w.add(w.add(a, w.word(s, o + 8 * Mate(i))), HalvesProduct(w, Key(w, s, o, secret, so, i)))
  }

  /** The first `n` lanes after a stripe. */
  function LanesAfter(w: Arith, acc: Lanes, s: Bytes, o: nat, secret: Bytes, so: nat, n: nat): (r: seq<u64>)
    requires n <= LANES
    ensures |r| == n
    decreases |s|, n
  {
    if n == 0 then [] else LanesAfter(w, acc, s, o, secret, so, n - 1) + [Lane(w, acc[n - 1], s, o, secret, so, n - 1)]
  }

  function Accumulated(w: Arith, acc: Lanes, s: Bytes, o: nat, secret: Bytes, so: nat): Lanes {
    LanesAfter(w, acc, s, o, secret, so, LANES)
  }

  function ScrambledLane(w: Arith, a: u64, secret: Bytes, so: nat, i: nat): u64
    requires i < LANES
  {
    w.mul(w.xor(XorShift(w, a, P47), w.word(secret, so + 8 * i)), PRIME32_1)
  }

  function LanesScrambled(w: Arith, acc: Lanes, secret: Bytes, so: nat, n: nat): (r: seq<u64>)
    requires n <= LANES
    ensures |r| == n
    decreases |secret|, n
  {
    if n == 0 then [] else LanesScrambled(w, acc, secret, so, n - 1) + [ScrambledLane(w, acc[n - 1], secret, so, n - 1)]
  }

  function Scrambled(w: Arith, acc: Lanes, secret: Bytes, so: nat): Lanes {
    LanesScrambled(w, acc, secret, so, LANES)
  }

  /** After the first `n` stripes from `o`. */
  function Stripes(w: Arith, acc: Lanes, s: Bytes, o: nat, secret: Bytes, n: nat): Lanes
    decreases |s|, n
  {
    if n == 0 then acc
    else Accumulated(w, Stripes(w, acc, s, o, secret, n - 1), s, o + STRIPE * (n - 1), secret, 8 * (n - 1))
  }

  /** After the first `b` blocks. */
  function Blocks(w: Arith, acc: Lanes, s: Bytes, secret: Bytes, b: nat): Lanes
    decreases |s|, b
  {
    if b == 0 then acc
    else
      Scrambled(w, Stripes(w, Blocks(w, acc, s, secret, b - 1), s, BLOCK * (b - 1), secret, STRIPES_PER_BLOCK), secret,
                SECRET_SIZE - STRIPE)
  }

  const INITIAL: Lanes := [PRIME32_3, PRIME64_1, PRIME64_2, PRIME64_3, PRIME64_4, PRIME32_2, PRIME64_5, PRIME32_1]

  function FullBlocks(len: nat): nat
    requires len > 0
  {
    (len - 1) / BLOCK
  }

  function LastStripes(len: nat): nat
    requires len > 0
  {
    (len - 1 - BLOCK * FullBlocks(len)) / STRIPE
  }

  function LongLanes(w: Arith, acc: Lanes, s: Bytes, secret: Bytes): Lanes
    requires |s| > 240 && |secret| == SECRET_SIZE
  {
    var n := FullBlocks(|s|);
    Accumulated(w, Stripes(w, Blocks(w, acc, s, secret, n), s, BLOCK * n, secret, LastStripes(|s|)), s, |s| - STRIPE,
                secret, 121)
  }

  /** The first `n` pairs of lanes merged. */
  function Merged(w: Arith, acc: Lanes, secret: Bytes, so: nat, start: u64, n: nat): u64
    requires n <= 4
    decreases |secret|, n
  {
    if n == 0 then start
    else
      w.add(Merged(w, acc, secret, so, start, n - 1),
          w.fold(w.xor(acc[2 * (n - 1)], w.word(secret, so + 16 * (n - 1))),
                  w.xor(acc[2 * (n - 1) + 1], w.word(secret, so + 16 * (n - 1) + 8))))
  }

  function HashLong(w: Arith, s: Bytes, secret: Bytes): U128
    requires 240 < |s| < TWO_64 && |secret| == SECRET_SIZE
  {
    var acc := LongLanes(w, INITIAL, s, secret);
    U128(Avalanche(w, Merged(w, acc, secret, 11, w.mul(|s| as u64, PRIME64_1), 4)),
         Avalanche(w, Merged(w, acc, secret, SECRET_SIZE - 64 - 11,
                             w.sub(0xFFFF_FFFF_FFFF_FFFF, w.mul(|s| as u64, PRIME64_2)), 4)))
  }

  /** The hash of any input, by its length. */
  function Xxh3(w: Arith, s: Bytes, secret: Bytes): U128
    requires |s| < TWO_64 && |secret| == SECRET_SIZE
  {
    if |s| == 0 then HashEmpty(w, secret)
    else if |s| <= 3 then Hash1to3(w, s, secret)
    else if |s| <= 8 then Hash4to8(w, s, secret)
    else if |s| <= 16 then Hash9to16(w, s, secret)
    else if |s| <= 128 then Hash17to128(w, s, secret)
    else if |s| <= 240 then Hash129to240(w, s, secret)
    else HashLong(w, s, secret)
  }
}
