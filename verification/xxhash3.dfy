/** 64-bit words and the exact 128-bit product of two of them. */
module Words {
  const TWO_32: int := 0x1_0000_0000
  const TWO_64: int := 0x1_0000_0000_0000_0000

  newtype u8 = x: int | 0 <= x < 256
  newtype u64 = x: int | 0 <= x < TWO_64

  datatype U128 = U128(low: u64, high: u64)

  // ----- operations that wrap around

  function Add(a: u64, b: u64): u64 {
    ((a as int + b as int) % TWO_64) as u64
  }

  function Sub(a: u64, b: u64): u64 {
    ((a as int - b as int) % TWO_64) as u64
  }

  function Mul(a: u64, b: u64): u64 {
    ((a as int * b as int) % TWO_64) as u64
  }

  function Shl(a: u64, power: int): u64
    requires power > 0
  {
    ((a as int * power) % TWO_64) as u64
  }

  function Xor(a: u64, b: u64): u64 {
    ((a as bv64) ^ (b as bv64)) as u64
  }

  function Low32(a: u64): u64 {
    a % 0x1_0000_0000
  }

  function High32(a: u64): u64 {
    a / 0x1_0000_0000
  }

  // ----- the product

  lemma Monotone(a: int, b: int, c: int)
    requires a <= b && c >= 0
    ensures a * c <= b * c
  {
  }

  lemma ProductBound(x: int, y: int, n: int)
    requires 0 <= x <= n && 0 <= y <= n
    ensures 0 <= x * y <= n * n
  {
    Monotone(x, n, y);
    Monotone(y, n, n);
    Monotone(0, x, y);
  }

  const MAX_PRODUCT: int := 0xFFFF_FFFE_0000_0001

  /** `XXH_mult32to64`: the product of the low halves, exactly. */
  function Mult32to64(x: u64, y: u64): (p: u64)
    ensures p as int == Low32(x) as int * Low32(y) as int <= MAX_PRODUCT
  {
    ProductBound(Low32(x) as int, Low32(y) as int, 0xFFFF_FFFF);
    Low32(x) * Low32(y)
  }

  lemma Expand(a: int, b: int, c: int, d: int, t: int)
    ensures (b * t + a) * (d * t + c) == a * c + (b * c) * t + (a * d) * t + (b * d) * (t * t)
  {
  }

  lemma Reassemble(ll: int, hl: int, lh: int, hh: int)
    requires 0 <= ll && 0 <= hl && 0 <= lh && 0 <= hh
    ensures var cross := ll / TWO_32 + hl % TWO_32 + lh;
            ((cross * TWO_32) % TWO_64 + ll % TWO_32) + TWO_64 * (hl / TWO_32 + cross / TWO_32 + hh) ==
            ll + hl * TWO_32 + lh * TWO_32 + hh * TWO_64
  {
    var cross := ll / TWO_32 + hl % TWO_32 + lh;
    ShiftKeepsLow(cross);
  }

  lemma ShiftKeepsLow(c: int)
    requires 0 <= c
    ensures (c * TWO_32) % TWO_64 == (c % TWO_32) * TWO_32
  {
    assert c == (c / TWO_32) * TWO_32 + c % TWO_32;
    assert c * TWO_32 == (c / TWO_32) * TWO_64 + (c % TWO_32) * TWO_32;
  }

  /** The four partial products of two 64-bit numbers given by their halves. */
  lemma PartialProducts(a: int, b: int, c: int, d: int)
    requires 0 <= a < TWO_32 && 0 <= b < TWO_32 && 0 <= c < TWO_32 && 0 <= d < TWO_32
    ensures 0 <= a * c <= MAX_PRODUCT && 0 <= b * c <= MAX_PRODUCT
    ensures 0 <= a * d <= MAX_PRODUCT && 0 <= b * d <= MAX_PRODUCT
    ensures a * c + (b * c) * TWO_32 + (a * d) * TWO_32 + (b * d) * TWO_64 == (b * TWO_32 + a) * (d * TWO_32 + c)
  {
    ProductBound(a, c, 0xFFFF_FFFF);
    ProductBound(b, c, 0xFFFF_FFFF);
    ProductBound(a, d, 0xFFFF_FFFF);
    ProductBound(b, d, 0xFFFF_FFFF);
    Expand(a, b, c, d, TWO_32);
  }

  /** Adding the partial products: nothing overflows, and the words are those of the product. */
  function Combine(ll: u64, hl: u64, lh: u64, hh: u64, ghost product: int): (p: U128)
    requires ll as int <= MAX_PRODUCT && hl as int <= MAX_PRODUCT
    requires lh as int <= MAX_PRODUCT && hh as int <= MAX_PRODUCT
    requires ll as int + hl as int * TWO_32 + lh as int * TWO_32 + hh as int * TWO_64 == product
    requires product < TWO_64 * TWO_64
    ensures p.low as int + TWO_64 * p.high as int == product
  {
    Reassemble(ll as int, hl as int, lh as int, hh as int);
    var cross := High32(ll) + Low32(hl) + lh;
    var lower := Shl(cross, TWO_32) + Low32(ll);  // `|` of words without common bits
    var upper := High32(hl) + High32(cross) + hh;
    U128(lower, upper)
  }

  lemma ProductFits(lhs: int, rhs: int)
    requires 0 <= lhs < TWO_64 && 0 <= rhs < TWO_64
    ensures lhs * rhs < TWO_64 * TWO_64
  {
    ProductBound(lhs, rhs, TWO_64 - 1);
  }

  lemma MultOfHalves(x: u64, y: u64)
    requires x as int < TWO_32 && y as int < TWO_32
    ensures Mult32to64(x, y) as int == x as int * y as int
  {
    assert Low32(x) == x && Low32(y) == y;
  }

  lemma PartialWords(lhs: u64, rhs: u64)
    ensures Mult32to64(Low32(lhs), Low32(rhs)) as int + Mult32to64(High32(lhs), Low32(rhs)) as int * TWO_32 +
            Mult32to64(Low32(lhs), High32(rhs)) as int * TWO_32 +
            Mult32to64(High32(lhs), High32(rhs)) as int * TWO_64 == lhs as int * rhs as int
  {
    var a, b, c, d := Low32(lhs), High32(lhs), Low32(rhs), High32(rhs);
    MultOfHalves(a, c);
    MultOfHalves(b, c);
    MultOfHalves(a, d);
    MultOfHalves(b, d);
    PartialProducts(a as int, b as int, c as int, d as int);
    HalvesOf(lhs as int);
    HalvesOf(rhs as int);
  }

  lemma HalvesOf(x: int)
    ensures (x / TWO_32) * TWO_32 + x % TWO_32 == x
  {
  }

  /** `XXH_mult64to128`: no sum of the partial products overflows 64 bits (the additions are checked, they do
      not wrap), and the two words of the result are the exact product. */
  function Mult64to128(lhs: u64, rhs: u64): (p: U128)
    ensures p.low as int + TWO_64 * p.high as int == lhs as int * rhs as int
  {
    PartialWords(lhs, rhs);
    ProductFits(lhs as int, rhs as int);
    Combine(Mult32to64(Low32(lhs), Low32(rhs)), Mult32to64(High32(lhs), Low32(rhs)),
            Mult32to64(Low32(lhs), High32(rhs)), Mult32to64(High32(lhs), High32(rhs)), lhs as int * rhs as int)
  }

  // ----- sums that wrap around may be reordered

  lemma AddSwap(a: u64, b: u64, c: u64)
    ensures Add(Add(a, b), c) == Add(Add(a, c), b)
  {
  }

  /** The two ways to add the high part of the last word for inputs of 9 to 16 bytes, one for 32-bit and one for
      64-bit machines, agree for all words and for every 32-bit factor but 0. */
  lemma HighAddsAgree(h: u64, x: u64, prime: u64)
    requires 0 < prime as int < TWO_32
    ensures Add(h, Add(x - Low32(x), Mult32to64(x, prime))) == Add(h, Add(x, Mult32to64(x, prime - 1)))
  {
    var l := Low32(x) as int;
    assert Low32(prime) == prime && Low32(prime - 1) == prime - 1;
    TakeOneAway(l, prime as int);
  }

  lemma TakeOneAway(l: int, p: int)
    ensures l * p == l * (p - 1) + l
  {
  }
}
