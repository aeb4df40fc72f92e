/** XXH3-128 as the code computes it: in-place lanes, nested length cases, and reads of the input one word at a
    time, which a reader records. */
module Xxh3Code {
  import opened Words
  import opened Xxh3Spec

  predicate IsPosition(i: int) {
    i >= 0
  }

  /** The `n` positions from `o`. */
  ghost function Span(o: nat, n: nat): (r: set<int>)
    ensures forall i :: i in r <==> o <= i < o + n
  {
    set i: int | o <= i < o + n && IsPosition(i)
  }

  predicate ReadsWord(w: Arith, s: Bytes, o: nat)
    requires o + 8 <= |s|
  {
    w.word(s, o) == Le64(s, o)
  }

  /** The words of `w` are little-endian. */
  ghost predicate ReadsWords(w: Arith) {
    forall s: Bytes, o: nat | o + 8 <= |s| :: ReadsWord(w, s, o)
  }

  /** The only access to the input: words and bytes inside it, each recorded. */
  class Reader {
    const data: Bytes
    ghost var seen: set<int>

    constructor (data: Bytes)
      ensures this.data == data && seen == {}
    {
      this.data := data;
      seen := {};
    }

    method Byte(o: nat) returns (b: u8)
      requires o < |data|
      modifies this
      ensures b == data[o] && seen == old(seen) + Span(o, 1)
    {
      seen := seen + Span(o, 1);
      return data[o];
    }

    method ReadLE32(o: nat) returns (v: u64)
      requires o + 4 <= |data|
      modifies this
      ensures v == Le32(data, o) && seen == old(seen) + Span(o, 4)
    {
      seen := seen + Span(o, 4);
      v := AssembleLE32(data, o);
    }

    method ReadLE64(w: Arith, o: nat) returns (v: u64)
      requires ReadsWords(w) && o + 8 <= |data|
      modifies this
      ensures v == w.word(data, o) && seen == old(seen) + Span(o, 8)
    {
      seen := seen + Span(o, 8);
      v := AssembleLE64(data, o);
      assert ReadsWord(w, data, o);
    }

    method ReadTwo(w: Arith, o: nat) returns (a: u64, b: u64)
      requires ReadsWords(w) && o + 16 <= |data|
      modifies this
      ensures a == w.word(data, o) && b == w.word(data, o + 8) && seen == old(seen) + Span(o, 16)
    {
      a := ReadLE64(w, o);
      b := ReadLE64(w, o + 8);
    }
  }

  /** `XXH_readLE32`: bytes shifted into place; `|` of bytes in different places is `+`. */
  method AssembleLE32(s: Bytes, o: nat) returns (v: u64)
    requires o + 4 <= |s|
    ensures v == Le32(s, o)
  {
    LeOfFour(s, o);
    return s[o] as u64 + s[o + 1] as u64 * 0x100 + s[o + 2] as u64 * 0x1_0000 + s[o + 3] as u64 * 0x100_0000;
  }

  /** `XXH_readLE64`. */
  method AssembleLE64(s: Bytes, o: nat) returns (v: u64)
    requires o + 8 <= |s|
    ensures v == Le64(s, o)
  {
    var lo := AssembleLE32(s, o);
    var hi := AssembleLE32(s, o + 4);
    Le32Small(s, o);
    Le32Small(s, o + 4);
    LeOfHalves(s, o);
    return lo + hi * P32;
  }

  lemma LeOfHalves(s: Bytes, o: nat)
    requires o + 8 <= |s|
    ensures Le(s, o, 8) == Le(s, o, 4) + TWO_32 * Le(s, o + 4, 4)
  {
    LeSplits(s, o, 4, 4);
    PowersUsed();
  }

  /** A word of the secret, which must lie inside it. */
  method SecretWord(w: Arith, secret: Bytes, so: nat) returns (v: u64)
    requires ReadsWords(w) && so + 8 <= |secret|
    ensures v == w.word(secret, so)
  {
    v := AssembleLE64(secret, so);
    assert ReadsWord(w, secret, so);
  }

  /** Two words of the secret, one xor the other. */
  method FlipWord(w: Arith, secret: Bytes, so: nat) returns (v: u64)
    requires ReadsWords(w) && so + 16 <= |secret|
    ensures v == w.xor(w.word(secret, so), w.word(secret, so + 8))
  {
    var a := SecretWord(w, secret, so);
    var b := SecretWord(w, secret, so + 8);
    return w.xor(a, b);
  }

  // ----- finalizers, word for word as in the code

  /** `XXH3_avalanche`. */
  method Avalanche37(w: Arith, h: u64) returns (r: u64)
    ensures r == Avalanche(w, h)
  {
    r := w.xor(h, h / P37);
    r := w.mul(r, PRIME_MX1);
    r := w.xor(r, r / P32);
  }

  /** `XXH64_avalanche`. */
  method Avalanche33(w: Arith, h: u64) returns (r: u64)
    ensures r == Avalanche64(w, h)
  {
    r := w.xor(h, h / P33);
    r := w.mul(r, PRIME64_2);
    r := w.xor(r, r / P29);
    r := w.mul(r, PRIME64_3);
    r := w.xor(r, r / P32);
  }

  /** How the cases for 17 to 240 bytes end. */
  method FinishAccs(w: Arith, acc: U128, len: u64) returns (h: U128)
    ensures h == Finish(w, acc, len)
  {
    var low := w.add(acc.low, acc.high);
    var high := w.add(w.add(w.mul(acc.low, PRIME64_1), w.mul(acc.high, PRIME64_4)), w.mul(len, PRIME64_2));
    low := Avalanche37(w, low);
    high := Avalanche37(w, high);
    return U128(low, w.sub(0, high));
  }

  // ----- up to 16 bytes

  method HashEmptyInput(w: Arith, secret: Bytes) returns (h: U128)
    requires ReadsWords(w) && |secret| == SECRET_SIZE
    ensures h == HashEmpty(w, secret)
  {
    var flipLow := FlipWord(w, secret, 64);
    var flipHigh := FlipWord(w, secret, 80);
    var low := Avalanche33(w, w.xor(0, flipLow));
    var high := Avalanche33(w, w.xor(0, flipHigh));
    return U128(low, high);
  }

  /** The bytes and the length shifted into place. */
  method PackBytes(c1: u8, c2: u8, c3: u8, len: nat) returns (x: u64)
    requires len < 256
    ensures x == Combined(c1, c2, c3, len)
  {
    return c1 as u64 * 0x1_0000 + c2 as u64 * 0x100_0000 + c3 as u64 + len as u64 * 0x100;
  }

  method HashLen1to3(w: Arith, input: Reader, secret: Bytes) returns (h: U128)
    requires ReadsWords(w) && 1 <= |input.data| <= 3 && |secret| == SECRET_SIZE
    modifies input
    ensures h == Hash1to3(w, input.data, secret) && input.seen == old(input.seen) + Span(0, |input.data|)
  {
    var len := |input.data|;
    var c1 := input.Byte(0);
    var c2 := input.Byte(len / 2);
    var c3 := input.Byte(len - 1);
    var combinedLow := PackBytes(c1, c2, c3, len);
    var combinedHigh := Rotl32By13(Swap32(combinedLow));
    var flipLow := w.xor(Le32(secret, 0), Le32(secret, 4));
    var flipHigh := w.xor(Le32(secret, 8), Le32(secret, 12));
    var low := Avalanche33(w, w.xor(combinedLow, flipLow));
    var high := Avalanche33(w, w.xor(combinedHigh, flipHigh));
    return U128(low, high);
  }

  method HashLen4to8(w: Arith, input: Reader, secret: Bytes) returns (h: U128)
    requires ReadsWords(w) && 4 <= |input.data| <= 8 && |secret| == SECRET_SIZE
    modifies input
    ensures h == Hash4to8(w, input.data, secret) && input.seen == old(input.seen) + Span(0, |input.data|)
  {
    var len := |input.data|;
    var lo := input.ReadLE32(0);
    var hi := input.ReadLE32(len - 4);
    Le32Small(input.data, 0);
    Le32Small(input.data, len - 4);
    var flip := FlipWord(w, secret, 16);
    var m := w.product(w.xor(lo + hi * P32, flip), PRIME64_1 + 4 * len as u64);
    var high := w.add(m.high, w.mul(m.low, 2));
    var low := w.xor(m.low, high / P3);
    low := w.mul(w.xor(low, low / P35), PRIME_MX2);
    high := Avalanche37(w, high);
    return U128(w.xor(low, low / P28), high);
  }

  /** `wide` is the branch for machines with 64-bit pointers; both branches compute the same. */
  method HashLen9to16(w: Arith, input: Reader, secret: Bytes, wide: bool) returns (h: U128)
    requires ReadsWords(w) && AddsHigh(w)
    requires 9 <= |input.data| <= 16 && |secret| == SECRET_SIZE
    modifies input
    ensures h == Hash9to16(w, input.data, secret) && input.seen == old(input.seen) + Span(0, |input.data|)
  {
    var len := |input.data|;
    var lo := input.ReadLE64(w, 0);
    var hi := input.ReadLE64(w, len - 8);
    h := Combine9to16(w, lo, hi, len, secret, wide);
  }

  /** The branches for 32-bit and for 64-bit machines. */
  method AddHighPart(h: u64, x: u64, wide: bool) returns (high: u64)
    ensures high == AddHigh(h, x)
  {
    if wide {
      high := Add(h, Add(x, Mult32to64(x, PRIME32_2 - 1)));
    } else {
      HighAddsAgree(h, x, PRIME32_2);
      high := Add(h, Add(x - Low32(x), Mult32to64(x, PRIME32_2)));
    }
  }

  ghost predicate AddsHigh(w: Arith) {
    forall h, x :: w.addHigh(h, x) == AddHigh(h, x)
  }

  method Combine9to16(w: Arith, lo: u64, hi: u64, len: nat, secret: Bytes, wide: bool) returns (h: U128)
    requires ReadsWords(w) && AddsHigh(w)
    requires 1 <= len <= 16 && |secret| == SECRET_SIZE
    ensures h == Mix9to16(w, lo, hi, len, secret)
  {
    var flipLow := FlipWord(w, secret, 32);
    var flipHigh := FlipWord(w, secret, 48);
    var m := w.product(w.xor(w.xor(lo, hi), flipLow), PRIME64_1);
    var low := w.add(m.low, (len - 1) as u64 * 0x40_0000_0000_0000);
    var x := w.xor(hi, flipHigh);
    var high := AddHighPart(m.high, x, wide);
    low := w.xor(low, Swap64(high));
    h := w.product(low, PRIME64_2);
    low := Avalanche37(w, h.low);
    high := Avalanche37(w, w.add(h.high, w.mul(high, PRIME64_2)));
    return U128(low, high);
  }

  // ----- 17 to 240 bytes

  /** `XXH3_mix16B` on two words already read, and `XXH3_mix2Accs` on two lanes. */
  method Mix16B(w: Arith, a: u64, b: u64, secret: Bytes, so: nat) returns (r: u64)
    requires ReadsWords(w) && so + 16 <= |secret|
    ensures r == w.fold(w.xor(a, w.word(secret, so)), w.xor(b, w.word(secret, so + 8)))
  {
    var k := SecretWord(w, secret, so);
    var l := SecretWord(w, secret, so + 8);
    return w.fold(w.xor(a, k), w.xor(b, l));
  }

  method MixPair(w: Arith, acc: U128, input: Reader, o1: nat, o2: nat, secret: Bytes, so: nat) returns (r: U128)
    requires ReadsWords(w) && o1 + 16 <= |input.data| && o2 + 16 <= |input.data| && so + 32 <= |secret|
    modifies input
    ensures r == Mix32(w, acc, input.data, o1, o2, secret, so)
    ensures input.seen == old(input.seen) + Span(o1, 16) + Span(o2, 16)
  {
    var a, b := input.ReadTwo(w, o1);
    var c, d := input.ReadTwo(w, o2);
    var mix1 := Mix16B(w, a, b, secret, so);
    var mix2 := Mix16B(w, c, d, secret, so + 16);
    return U128(w.xor(w.add(acc.low, mix1), w.add(c, d)), w.xor(w.add(acc.high, mix2), w.add(a, b)));
  }

  // The input is read from both ends: the rounds `k` to `n - 1` cover 16 bytes a round at either end.

  ghost predicate SeenRounds(seen: set<int>, before: set<int>, len: nat, k: nat, n: nat)
    requires k <= n && 16 * n <= len
  {
    seen == before + Span(16 * k, 16 * (n - k)) + Span(len - 16 * n, 16 * (n - k))
  }

  /** A span grows by 16 positions at its front, or at its end. */
  lemma SpanGrows(o: nat, n: nat)
    ensures o >= 16 ==> Span(o - 16, n + 16) == Span(o - 16, 16) + Span(o, n)
    ensures Span(o, n + 16) == Span(o, n) + Span(o + n, 16)
  {
  }

  lemma SeenRoundMore(seen: set<int>, before: set<int>, len: nat, k: nat, n: nat)
    requires 0 < k <= n && 16 * n <= len && SeenRounds(seen, before, len, k, n)
    ensures SeenRounds(seen + Span(16 * (k - 1), 16) + Span(len - 16 * k, 16), before, len, k - 1, n)
  {
    SpanGrows(16 * k, 16 * (n - k));
    SpanGrows(len - 16 * n, 16 * (n - k));
  }

  lemma SeenAllRounds(seen: set<int>, before: set<int>, len: nat, n: nat)
    requires 16 * n <= len <= 32 * n && SeenRounds(seen, before, len, 0, n)
    ensures seen == before + Span(0, len)
  {
  }

  lemma NextInward(w: Arith, acc: U128, s: Bytes, secret: Bytes, k: nat, goal: U128)
    requires 0 < k && 16 * k <= |s| && InwardRounds(w, acc, s, secret, k) == goal
    ensures var r := Mix32(w, acc, s, 16 * (k - 1), |s| - 16 * k, secret, 32 * (k - 1));
            InwardRounds(w, r, s, secret, k - 1) == goal
  {
  }

  lemma NoneRemain(w: Arith, acc: U128, s: Bytes, secret: Bytes)
    ensures InwardRounds(w, acc, s, secret, 0) == acc
  {
  }

  /** One round, which is the outermost of the `k` that remain. */
  method InwardRound(
    w: Arith, acc: U128, input: Reader, o1: nat, o2: nat, secret: Bytes, so: nat,
    ghost k: nat, ghost n: nat, ghost before: set<int>, ghost goal: U128)
    returns (r: U128)
    requires ReadsWords(w) && 0 < k <= n && 16 * n <= |input.data| && 32 * k <= |secret|
    requires o1 == 16 * (k - 1) && o2 == |input.data| - 16 * k && so == 32 * (k - 1)
    requires SeenRounds(input.seen, before, |input.data|, k, n)
    requires InwardRounds(w, acc, input.data, secret, k) == goal
    modifies input
    ensures InwardRounds(w, r, input.data, secret, k - 1) == goal
    ensures SeenRounds(input.seen, before, |input.data|, k - 1, n)
  {
    SeenRoundMore(input.seen, before, |input.data|, k, n);
    NextInward(w, acc, input.data, secret, k, goal);
    r := MixPair(w, acc, input, o1, o2, secret, so);
  }

  // The nested cases of the code, from the inside out: they are the rounds of the specification, the last first.

  method RoundOver96(
    w: Arith, start: U128, input: Reader, secret: Bytes, ghost n: nat, ghost before: set<int>, ghost goal: U128)
    returns (acc: U128)
    requires ReadsWords(w) && 64 < |input.data| <= 128 && |secret| == SECRET_SIZE
    requires 0 < n && 32 * (n - 1) < |input.data| <= 32 * n && SeenRounds(input.seen, before, |input.data|, n, n)
    requires InwardRounds(w, start, input.data, secret, n) == goal
    modifies input
    ensures InwardRounds(w, acc, input.data, secret, 3) == goal && SeenRounds(input.seen, before, |input.data|, 3, n)
  {
    acc := start;
    if |input.data| > 96 {
      assert n == 4;
      acc := InwardRound(w, acc, input, 48, |input.data| - 64, secret, 96, n, n, before, goal);
    } else {
      assert n == 3;
    }
  }

  method RoundsOver64(
    w: Arith, start: U128, input: Reader, secret: Bytes, ghost n: nat, ghost before: set<int>, ghost goal: U128)
    returns (acc: U128)
    requires ReadsWords(w) && 64 < |input.data| <= 128 && |secret| == SECRET_SIZE
    requires 0 < n && 32 * (n - 1) < |input.data| <= 32 * n && SeenRounds(input.seen, before, |input.data|, n, n)
    requires InwardRounds(w, start, input.data, secret, n) == goal
    modifies input
    ensures InwardRounds(w, acc, input.data, secret, 2) == goal && SeenRounds(input.seen, before, |input.data|, 2, n)
  {
    acc := RoundOver96(w, start, input, secret, n, before, goal);
    acc := InwardRound(w, acc, input, 32, |input.data| - 48, secret, 64, 3, n, before, goal);
  }

  method RoundsOver32(
    w: Arith, start: U128, input: Reader, secret: Bytes, ghost n: nat, ghost before: set<int>, ghost goal: U128)
    returns (acc: U128)
    requires ReadsWords(w) && 32 < |input.data| <= 128 && |secret| == SECRET_SIZE
    requires 0 < n && 32 * (n - 1) < |input.data| <= 32 * n && SeenRounds(input.seen, before, |input.data|, n, n)
    requires InwardRounds(w, start, input.data, secret, n) == goal
    modifies input
    ensures InwardRounds(w, acc, input.data, secret, 1) == goal && SeenRounds(input.seen, before, |input.data|, 1, n)
  {
    acc := start;
    if |input.data| > 64 {
      acc := RoundsOver64(w, acc, input, secret, n, before, goal);
    }
    acc := InwardRound(w, acc, input, 16, |input.data| - 32, secret, 32, 2, n, before, goal);
  }

  method NestedRounds(w: Arith, start: U128, input: Reader, secret: Bytes) returns (acc: U128)
    requires ReadsWords(w) && 17 <= |input.data| <= 128 && |secret| == SECRET_SIZE
    modifies input
    ensures acc == InwardRounds(w, start, input.data, secret, Rounds17(|input.data|))
    ensures SeenRounds(input.seen, old(input.seen), |input.data|, 0, Rounds17(|input.data|))
  {
    ghost var n, before := Rounds17(|input.data|), input.seen;
    ghost var goal := InwardRounds(w, start, input.data, secret, n);
    RoundsCover(|input.data|);
    SeenNothing(before, |input.data|, n);
    acc := start;
    if |input.data| > 32 {
      acc := RoundsOver32(w, acc, input, secret, n, before, goal);
    }
    acc := InwardRound(w, acc, input, 0, |input.data| - 16, secret, 0, 1, n, before, goal);
    NoneRemain(w, acc, input.data, secret);
  }

  lemma RoundsCover(len: nat)
    requires len > 0
    ensures 32 * (Rounds17(len) - 1) < len <= 32 * Rounds17(len)
  {
  }

  lemma SeenNothing(before: set<int>, len: nat, n: nat)
    requires 16 * n <= len
    ensures SeenRounds(before, before, len, n, n)
  {
  }

  method HashLen17to128(w: Arith, input: Reader, secret: Bytes) returns (h: U128)
    requires ReadsWords(w) && 17 <= |input.data| <= 128 && |secret| == SECRET_SIZE
    modifies input
    ensures h == Hash17to128(w, input.data, secret) && input.seen == old(input.seen) + Span(0, |input.data|)
  {
    var acc := NestedRounds(w, U128(w.mul(|input.data| as u64, PRIME64_1), 0), input, secret);
    SeenAllRounds(input.seen, old(input.seen), |input.data|, Rounds17(|input.data|));
    h := FinishAccs(w, acc, |input.data| as u64);
  }

  /** `accs` are the accumulators before each segment from `first` on, and after the last. */
  ghost predicate Segments(
    w: Arith, accs: seq<U128>, start: U128, s: Bytes, secret: Bytes, base: nat, first: nat)
  {
    forall j | 0 <= j < |accs| :: Segment(w, accs, start, s, secret, base, first, j)
  }

  ghost predicate Segment(
    w: Arith, accs: seq<U128>, start: U128, s: Bytes, secret: Bytes, base: nat, first: nat, j: nat)
    requires j < |accs|
  {
    accs[j] == OnwardRounds(w, start, s, secret, base, first, first + j)
  }

  lemma NextSegment(
    w: Arith, accs: seq<U128>, start: U128, s: Bytes, secret: Bytes, base: nat, first: nat, j: nat)
    requires j + 1 < |accs| && Segments(w, accs, start, s, secret, base, first)
    ensures accs[j + 1] == Mix32(w, accs[j], s, 32 * (first + j), 32 * (first + j) + 16, secret, base + 32 * j)
  {
    assert Segment(w, accs, start, s, secret, base, first, j) && Segment(w, accs, start, s, secret, base, first, j + 1);
  }

  lemma SegmentsOf(w: Arith, start: U128, s: Bytes, secret: Bytes, base: nat, first: nat, n: nat)
    returns (accs: seq<U128>)
    requires first <= n
    ensures |accs| == n - first + 1 && Segments(w, accs, start, s, secret, base, first)
  {
    accs := seq(n - first + 1, j requires 0 <= j => OnwardRounds(w, start, s, secret, base, first, first + j));
  }

  lemma SegmentEnds(w: Arith, accs: seq<U128>, start: U128, s: Bytes, secret: Bytes, base: nat, first: nat)
    requires accs != [] && Segments(w, accs, start, s, secret, base, first)
    ensures accs[0] == start && accs[|accs| - 1] == OnwardRounds(w, start, s, secret, base, first, first + |accs| - 1)
  {
    assert Segment(w, accs, start, s, secret, base, first, 0);
    assert Segment(w, accs, start, s, secret, base, first, |accs| - 1);
  }

  ghost predicate SeenSegments(seen: set<int>, before: set<int>, first: nat, j: nat) {
    seen == before + Span(32 * first, 32 * j)
  }

  /** One pass of such a loop, at segment `first + j`. */
  method SegmentRound(
    w: Arith, acc: U128, input: Reader, i: nat, secret: Bytes, base: nat, first: nat,
    ghost start: U128, ghost accs: seq<U128>, ghost j: nat, ghost before: set<int>)
    returns (r: U128)
    requires ReadsWords(w) && j + 1 < |accs| && i == 32 * (first + j) + 32
    requires i <= |input.data| && base + 32 * j + 32 <= |secret|
    requires acc == accs[j] && Segments(w, accs, start, input.data, secret, base, first)
    requires SeenSegments(input.seen, before, first, j)
    modifies input
    ensures r == accs[j + 1] && SeenSegments(input.seen, before, first, j + 1)
  {
    SegmentSeen(first, j);
    NextSegment(w, accs, start, input.data, secret, base, first, j);
    r := MixPair(w, acc, input, i - 32, i - 16, secret, base + (i - 32 - 32 * first));
  }

  /** One of the loops for 129 to 240 bytes: `i` runs 32 ahead of the segment that is mixed. */
  method SegmentRounds(
    w: Arith, start: U128, input: Reader, secret: Bytes, base: nat, first: nat, n: nat)
    returns (acc: U128)
    requires ReadsWords(w) && first <= n && 32 * n <= |input.data| && base + 32 * (n - first) <= |secret|
    modifies input
    ensures acc == OnwardRounds(w, start, input.data, secret, base, first, n)
    ensures input.seen == old(input.seen) + Span(32 * first, 32 * (n - first))
  {
    ghost var accs := SegmentsOf(w, start, input.data, secret, base, first, n);
    SegmentEnds(w, accs, start, input.data, secret, base, first);
    ghost var j, before := 0, input.seen;
    acc := start;
    var i := 32 * first + 32;
    while i <= 32 * n
      invariant j <= n - first && i == 32 * (first + j) + 32
      invariant acc == accs[j] && SeenSegments(input.seen, before, first, j)
      decreases n - first - j
    {
      acc := SegmentRound(w, acc, input, i, secret, base, first, start, accs, j, before);
      i, j := i + 32, j + 1;
    }
    assert j == n - first;
  }

  lemma SegmentSeen(first: nat, j: nat)
    ensures Span(32 * first, 32 * (j + 1)) ==
      Span(32 * first, 32 * j) + Span(32 * (first + j), 16) + Span(32 * (first + j) + 16, 16)
  {
  }

  method HashLen129to240(w: Arith, input: Reader, secret: Bytes) returns (h: U128)
    requires ReadsWords(w) && 129 <= |input.data| <= 240 && |secret| == SECRET_SIZE
    modifies input
    ensures h == Hash129to240(w, input.data, secret) && input.seen == old(input.seen) + Span(0, |input.data|)
  {
    var len := |input.data|;
    var acc := SegmentRounds(w, U128(w.mul(len as u64, PRIME64_1), 0), input, secret, 0, 0, 4);
    var low := Avalanche37(w, acc.low);
    var high := Avalanche37(w, acc.high);
    acc := SegmentRounds(w, U128(low, high), input, secret, 3, 4, len / 32);
    acc := MixPair(w, acc, input, len - 16, len - 32, secret, 103);
    h := FinishAccs(w, acc, len as u64);
  }

  // ----- more than 240 bytes

  /** The order in which two words are added to a lane does not matter. */
  ghost predicate Reorders(w: Arith) {
    forall a, b, c :: Swaps(w, a, b, c)
  }

  predicate Swaps(w: Arith, a: u64, b: u64, c: u64) {
    w.add(w.add(a, b), c) == w.add(w.add(a, c), b)
  }

  /** A lane that has taken its neighbour's data or not, and its own product or not. */
  ghost function PartLane(
    w: Arith, a: u64, s: Bytes, o: nat, secret: Bytes, so: nat, j: nat, i: nat): u64
  {
    var taken := if Mate(j) < i then w.add(a, w.word(s, o + 8 * Mate(j))) else a;
    if j < i then w.add(taken, HalvesProduct(w, Key(w, s, o, secret, so, j))) else taken
  }

  /** The lanes after `i` of the eight rounds of a stripe. */
  ghost predicate PartlyDone(
    w: Arith, acc: seq<u64>, start: Lanes, s: Bytes, o: nat, secret: Bytes, so: nat, i: nat)
  {
    |acc| == LANES && forall j | 0 <= j < LANES :: acc[j] == PartLane(w, start[j], s, o, secret, so, j, i)
  }

  lemma MateIsXor(lane: nat)
    requires lane < LANES
    ensures ((lane as bv8) ^ 1) as nat == Mate(lane)
  {
  }

  /** `XXH3_scalarRound`. */
  method ScalarRound(w: Arith, acc: array<u64>, input: Reader, o: nat, secret: Bytes, so: nat, lane: nat)
    requires ReadsWords(w) && acc.Length == LANES && lane < LANES
    requires o + 8 * lane + 8 <= |input.data| && so + 8 * lane + 8 <= |secret|
    modifies acc, input
    ensures acc[..] == old(acc[..])
              [Mate(lane) := w.add(old(acc[Mate(lane)]), w.word(input.data, o + 8 * lane))]
              [lane := w.add(old(acc[lane]), HalvesProduct(w, Key(w, input.data, o, secret, so, lane)))]
    ensures input.seen == old(input.seen) + Span(o + 8 * lane, 8)
  {
    var data := input.ReadLE64(w, o + 8 * lane);
    var secretWord := SecretWord(w, secret, so + 8 * lane);
    var key := w.xor(data, secretWord);
    MateIsXor(lane);
    var mate := ((lane as bv8) ^ 1) as nat;
    acc[mate] := w.add(acc[mate], data);  // swap adjacent lanes
    acc[lane] := w.add(acc[lane], w.mul32(Low32(key), High32(key)));
  }

  lemma RoundGoesOn(
    w: Arith, acc: seq<u64>, start: Lanes, s: Bytes, o: nat, secret: Bytes, so: nat, i: nat)
    requires Reorders(w) && i < LANES && PartlyDone(w, acc, start, s, o, secret, so, i)
    ensures PartlyDone(w, acc[Mate(i) := w.add(acc[Mate(i)], w.word(s, o + 8 * i))]
                             [i := w.add(acc[i], HalvesProduct(w, Key(w, s, o, secret, so, i)))],
                       start, s, o, secret, so, i + 1)
  {
    var after := acc[Mate(i) := w.add(acc[Mate(i)], w.word(s, o + 8 * i))]
                    [i := w.add(acc[i], HalvesProduct(w, Key(w, s, o, secret, so, i)))];
    forall j | 0 <= j < LANES ensures after[j] == PartLane(w, start[j], s, o, secret, so, j, i + 1) {
      assert acc[j] == PartLane(w, start[j], s, o, secret, so, j, i);
      assert Mate(Mate(j)) == j;
      if j == Mate(i) {
        assert after[j] == w.add(acc[j], w.word(s, o + 8 * i));
        assert Swaps(w, start[j], w.word(s, o + 8 * i), HalvesProduct(w, Key(w, s, o, secret, so, j)));
      }
    }
  }

  lemma {:induction false} LaneOf(
    w: Arith, acc: Lanes, s: Bytes, o: nat, secret: Bytes, so: nat, n: nat, j: nat)
    requires j < n <= LANES
    ensures LanesAfter(w, acc, s, o, secret, so, n)[j] == Lane(w, acc[j], s, o, secret, so, j)
  {
    if j < n - 1 {
      LaneOf(w, acc, s, o, secret, so, n - 1, j);
    }
  }

  lemma {:induction false} ScrambledLaneOf(w: Arith, acc: Lanes, secret: Bytes, so: nat, n: nat, j: nat)
    requires j < n <= LANES
    ensures LanesScrambled(w, acc, secret, so, n)[j] == ScrambledLane(w, acc[j], secret, so, j)
  {
    if j < n - 1 {
      ScrambledLaneOf(w, acc, secret, so, n - 1, j);
    }
  }

  lemma DoneIsAccumulated(w: Arith, acc: seq<u64>, start: Lanes, s: Bytes, o: nat, secret: Bytes, so: nat)
    requires PartlyDone(w, acc, start, s, o, secret, so, LANES)
    ensures acc == Accumulated(w, start, s, o, secret, so)
  {
    forall j | 0 <= j < LANES ensures acc[j] == Accumulated(w, start, s, o, secret, so)[j] {
      LaneOf(w, start, s, o, secret, so, LANES, j);
      assert acc[j] == PartLane(w, start[j], s, o, secret, so, j, LANES);
    }
  }

  lemma LaneSeen(o: nat, i: nat)
    ensures Span(o, 8 * i) + Span(o + 8 * i, 8) == Span(o, 8 * (i + 1))
  {
  }

  /** `XXH3_accumulate_512_scalar`: the rounds in place, lane after lane, give every lane its data and its product
      as if all lanes had changed at once. */
  method Accumulate512(w: Arith, acc: array<u64>, input: Reader, o: nat, secret: Bytes, so: nat)
    requires ReadsWords(w)
    requires Reorders(w) && acc.Length == LANES && o + STRIPE <= |input.data| && so + STRIPE <= |secret|
    modifies acc, input
    ensures acc[..] == Accumulated(w, old(acc[..]), input.data, o, secret, so)
    ensures input.seen == old(input.seen) + Span(o, STRIPE)
  {
    ghost var start: Lanes := acc[..];
    ghost var before := input.seen;
    for i := 0 to LANES
      invariant PartlyDone(w, acc[..], start, input.data, o, secret, so, i)
      invariant input.seen == before + Span(o, 8 * i)
    {
      RoundGoesOn(w, acc[..], start, input.data, o, secret, so, i);
      LaneSeen(o, i);
      ScalarRound(w, acc, input, o, secret, so, i);
    }
    DoneIsAccumulated(w, acc[..], start, input.data, o, secret, so);
  }

  lemma StripeSeen(o: nat, n: nat)
    ensures Span(o, STRIPE * n) + Span(o + STRIPE * n, STRIPE) == Span(o, STRIPE * (n + 1))
  {
  }

  method AddStripe(
    w: Arith, acc: array<u64>, input: Reader, o: nat, secret: Bytes, n: nat, ghost start: Lanes, ghost before: set<int>)
    requires ReadsWords(w) && Reorders(w) && acc.Length == LANES && o + STRIPE * n + STRIPE <= |input.data|
    requires 8 * n + STRIPE <= |secret|
    requires acc[..] == Stripes(w, start, input.data, o, secret, n)
    requires input.seen == before + Span(o, STRIPE * n)
    modifies acc, input
    ensures acc[..] == Stripes(w, start, input.data, o, secret, n + 1)
    ensures input.seen == before + Span(o, STRIPE * (n + 1))
  {
    StripeSeen(o, n);
    ghost var lanes: Lanes := acc[..];
    Accumulate512(w, acc, input, o + STRIPE * n, secret, 8 * n);
    NextStripe(w, start, lanes, input.data, o, secret, n);
  }

  lemma NextStripe(w: Arith, start: Lanes, lanes: Lanes, s: Bytes, o: nat, secret: Bytes, n: nat)
    requires lanes == Stripes(w, start, s, o, secret, n)
    ensures Stripes(w, start, s, o, secret, n + 1) == Accumulated(w, lanes, s, o + STRIPE * n, secret, 8 * n)
  {
  }

  /** `XXH3_accumulate_scalar`. */
  method Accumulate(w: Arith, acc: array<u64>, input: Reader, o: nat, secret: Bytes, stripes: nat)
    requires ReadsWords(w) && Reorders(w) && acc.Length == LANES && |secret| == SECRET_SIZE
    requires stripes <= STRIPES_PER_BLOCK && o + STRIPE * stripes <= |input.data|
    modifies acc, input
    ensures acc[..] == Stripes(w, old(acc[..]), input.data, o, secret, stripes)
    ensures input.seen == old(input.seen) + Span(o, STRIPE * stripes)
  {
    ghost var start: Lanes := acc[..];
    ghost var before := input.seen;
    for n := 0 to stripes
      invariant acc[..] == Stripes(w, start, input.data, o, secret, n)
      invariant input.seen == before + Span(o, STRIPE * n)
    {
      AddStripe(w, acc, input, o, secret, n, start, before);
    }
  }

  /** `XXH3_scrambleAcc_scalar`. */
  method ScrambleAcc(w: Arith, acc: array<u64>, secret: Bytes, so: nat)
    requires ReadsWords(w) && acc.Length == LANES && so + STRIPE <= |secret|
    modifies acc
    ensures acc[..] == Scrambled(w, old(acc[..]), secret, so)
  {
    ghost var start: Lanes := acc[..];
    for i := 0 to LANES
      invariant forall j | 0 <= j < LANES ::
          acc[j] == if j < i then ScrambledLane(w, start[j], secret, so, j) else start[j]
    {
      var key := SecretWord(w, secret, so + 8 * i);
      acc[i] := w.mul(w.xor(w.xor(acc[i], acc[i] / P47), key), PRIME32_1);
    }
    forall j | 0 <= j < LANES ensures acc[j] == Scrambled(w, start, secret, so)[j] {
      ScrambledLaneOf(w, start, secret, so, LANES, j);
    }
  }

  lemma BlockSeen(b: nat)
    ensures Span(0, BLOCK * b) + Span(BLOCK * b, STRIPE * STRIPES_PER_BLOCK) == Span(0, BLOCK * (b + 1))
  {
  }

  method AccumulateBlocks(w: Arith, acc: array<u64>, input: Reader, secret: Bytes, blocks: nat)
    requires ReadsWords(w)
    requires Reorders(w) && acc.Length == LANES && |secret| == SECRET_SIZE && BLOCK * blocks <= |input.data|
    modifies acc, input
    ensures acc[..] == Blocks(w, old(acc[..]), input.data, secret, blocks)
    ensures input.seen == old(input.seen) + Span(0, BLOCK * blocks)
  {
    ghost var start: Lanes := acc[..];
    ghost var before := input.seen;
    for n := 0 to blocks
      invariant acc[..] == Blocks(w, start, input.data, secret, n)
      invariant input.seen == before + Span(0, BLOCK * n)
    {
      BlockSeen(n);
      Accumulate(w, acc, input, BLOCK * n, secret, STRIPES_PER_BLOCK);
      ScrambleAcc(w, acc, secret, SECRET_SIZE - STRIPE);
    }
  }

  lemma LongBounds(len: nat)
    requires len > 240
    ensures var b := FullBlocks(len); var n := LastStripes(len);
            BLOCK * b + STRIPE * n < len <= BLOCK * b + STRIPE * n + STRIPE && n <= STRIPES_PER_BLOCK
  {
  }

  /** The blocks, the last stripes and the final stripe cover the input. */
  lemma LongCover(len: nat)
    requires len > 240
    ensures var b := FullBlocks(len); var n := LastStripes(len);
            && BLOCK * b + STRIPE * n < len <= BLOCK * b + STRIPE * n + STRIPE && n <= STRIPES_PER_BLOCK
            && Span(0, BLOCK * b) + Span(BLOCK * b, STRIPE * n) + Span(len - STRIPE, STRIPE) == Span(0, len)
  {
  }

  /** What `XXH3_hashLong_internal_loop` does after its blocks. */
  method AccumulateRest(w: Arith, acc: array<u64>, input: Reader, secret: Bytes, blocks: nat)
    requires ReadsWords(w) && Reorders(w)
    requires acc.Length == LANES && |secret| == SECRET_SIZE && |input.data| > 240 && blocks == FullBlocks(|input.data|)
    modifies acc, input
    ensures var len := |input.data|;
            && acc[..] == Accumulated(
                 w, Stripes(w, old(acc[..]), input.data, BLOCK * blocks, secret, LastStripes(len)), input.data,
                 len - STRIPE, secret, SECRET_SIZE - STRIPE - 7)
            && input.seen == old(input.seen) + Span(BLOCK * blocks, STRIPE * LastStripes(len))
                           + Span(len - STRIPE, STRIPE)
  {
    var len := |input.data|;
    LongBounds(len);
    var stripes := ((len - 1) - BLOCK * blocks) / STRIPE;
    Accumulate(w, acc, input, BLOCK * blocks, secret, stripes);
    Accumulate512(w, acc, input, len - STRIPE, secret, SECRET_SIZE - STRIPE - 7);
  }

  /** `XXH3_hashLong_internal_loop`. */
  method HashLongLoop(w: Arith, acc: array<u64>, input: Reader, secret: Bytes)
    requires ReadsWords(w)
    requires Reorders(w) && acc.Length == LANES && |secret| == SECRET_SIZE && |input.data| > 240
    modifies acc, input
    ensures acc[..] == LongLanes(w, old(acc[..]), input.data, secret)
    ensures input.seen == old(input.seen) + Span(0, |input.data|)
  {
    LongCover(|input.data|);
    var blocks := (|input.data| - 1) / BLOCK;
    AccumulateBlocks(w, acc, input, secret, blocks);
    AccumulateRest(w, acc, input, secret, blocks);
  }

  /** `XXH3_mergeAccs`, without the avalanche. */
  method MergeAccs(w: Arith, acc: array<u64>, secret: Bytes, so: nat, start: u64) returns (r: u64)
    requires ReadsWords(w) && acc.Length == LANES && so + 64 <= |secret|
    ensures r == Merged(w, acc[..], secret, so, start, 4)
  {
    r := start;
    for i := 0 to 4
      invariant r == Merged(w, acc[..], secret, so, start, i)
    {
      var mix := Mix16B(w, acc[2 * i], acc[2 * i + 1], secret, so + 16 * i);
      r := w.add(r, mix);
    }
  }

  method HashLongInput(w: Arith, input: Reader, secret: Bytes) returns (h: U128)
    requires ReadsWords(w) && Reorders(w) && 240 < |input.data| < TWO_64 && |secret| == SECRET_SIZE
    modifies input
    ensures h == HashLong(w, input.data, secret) && input.seen == old(input.seen) + Span(0, |input.data|)
  {
    var acc := new u64[] [PRIME32_3, PRIME64_1, PRIME64_2, PRIME64_3, PRIME64_4, PRIME32_2, PRIME64_5, PRIME32_1];
    assert acc[..] == INITIAL;
    HashLongLoop(w, acc, input, secret);
    var len := |input.data| as u64;
    var low := MergeAccs(w, acc, secret, 11, w.mul(len, PRIME64_1));
    var high := MergeAccs(w, acc, secret, SECRET_SIZE - 64 - 11, w.sub(0xFFFF_FFFF_FFFF_FFFF, w.mul(len, PRIME64_2)));
    low := Avalanche37(w, low);
    high := Avalanche37(w, high);
    return U128(low, high);
  }

  lemma MachineArith()
    ensures Reorders(MACHINE) && AddsHigh(MACHINE) && ReadsWords(MACHINE)
  {
    forall a, b, c ensures Swaps(MACHINE, a, b, c) {
      AddSwap(a, b, c);
    }
  }

  /** The hash of any input: every branch reads every byte of the input at least once and nothing outside it, and
      returns the value the specification gives. */
  method Hash(w: Arith, input: Reader, secret: Bytes, wide: bool) returns (h: U128)
    requires ReadsWords(w) && Reorders(w) && AddsHigh(w) && |input.data| < TWO_64 && |secret| == SECRET_SIZE
    modifies input
    ensures h == Xxh3(w, input.data, secret)
    ensures input.seen == old(input.seen) + Span(0, |input.data|)
  {
    var len := |input.data|;
    if len == 0 {
      h := HashEmptyInput(w, secret);
    } else if len <= 3 {
      h := HashLen1to3(w, input, secret);
    } else if len <= 8 {
      h := HashLen4to8(w, input, secret);
    } else if len <= 16 {
      h := HashLen9to16(w, input, secret, wide);
    } else if len <= 128 {
      h := HashLen17to128(w, input, secret);
    } else if len <= 240 {
      h := HashLen129to240(w, input, secret);
    } else {
      h := HashLongInput(w, input, secret);
    }
  }
}
