/** The pool of serialization buffers, with `size_t` arithmetic as written. */
module BufferPools {
  import opened CTypes
  import opened Options

  /** `data` is the address the allocator gave. */
  datatype Buffer = Buffer(data: int, size: nat)

  function Bytes(bs: seq<Buffer>): nat {
    if bs == [] then 0 else Bytes(bs[..|bs| - 1]) + bs[|bs| - 1].size
  }

  ghost predicate AddressesDiffer(bs: seq<Buffer>) {
    forall i, j | 0 <= i < j < |bs| :: bs[i].data != bs[j].data
  }

  predicate Uses(bs: seq<Buffer>, address: int) {
    exists i :: 0 <= i < |bs| && bs[i].data == address
  }

  lemma {:induction false} BytesAppend(a: seq<Buffer>, b: seq<Buffer>)
    ensures Bytes(a + b) == Bytes(a) + Bytes(b)
  {
    if b == [] {
      assert a + b == a;
    } else {
      BytesAppend(a, b[..|b| - 1]);
      assert (a + b)[..|a + b| - 1] == a + b[..|b| - 1];
    }
  }

  function RemoveAt(bs: seq<Buffer>, i: nat): seq<Buffer>
    requires i < |bs|
  {
    bs[..i] + bs[i + 1..]
  }

  lemma BytesOfOne(b: Buffer)
    ensures Bytes([b]) == b.size
  {
    assert [b][..0] == [];
  }

  lemma BytesAround(a: seq<Buffer>, b: Buffer, c: seq<Buffer>)
    ensures Bytes((a + [b]) + c) == Bytes(a + c) + b.size
  {
    BytesAppend(a + [b], c);
    BytesAppend(a, [b]);
    BytesAppend(a, c);
    BytesOfOne(b);
  }

  lemma SplitAt(bs: seq<Buffer>, i: nat)
    requires i < |bs|
    ensures (bs[..i] + [bs[i]]) + bs[i + 1..] == bs
  {
  }

  lemma BytesWithout(bs: seq<Buffer>, i: nat)
    requires i < |bs|
    ensures Bytes(RemoveAt(bs, i)) == Bytes(bs) - bs[i].size
  {
    SplitAt(bs, i);
    BytesAround(bs[..i], bs[i], bs[i + 1..]);
  }

  /** Whatever rearranges buffers one to one keeps them apart. */
  lemma Rearranged(before: seq<Buffer>, after: seq<Buffer>, origin: nat -> nat)
    requires AddressesDiffer(before)
    requires forall a | 0 <= a < |after| :: origin(a) < |before| && after[a] == before[origin(a)]
    requires forall a, b | 0 <= a < b < |after| :: origin(a) != origin(b)
    ensures AddressesDiffer(after)
  {
    forall a, b | 0 <= a < b < |after| ensures after[a].data != after[b].data {
      assert after[a] == before[origin(a)] && after[b] == before[origin(b)];
    }
  }

  function AllButLast(bs: seq<Buffer>): seq<Buffer> {
    if bs == [] then [] else bs[..|bs| - 1]
  }

  lemma PopKeepsSeparate(pool: seq<Buffer>, out: seq<Buffer>)
    requires AddressesDiffer(pool + out) && pool != []
    ensures AddressesDiffer(pool[..|pool| - 1] + out)
    ensures !Uses(pool[..|pool| - 1] + out, pool[|pool| - 1].data)
  {
    var k, all, rest := |pool| - 1, pool + out, pool[..|pool| - 1] + out;
    var origin := (a: nat) => if a < k then a else a + 1;
    forall a | 0 <= a < |rest| ensures rest[a] == all[origin(a)] && rest[a].data != all[k].data {
    }
    Rearranged(all, rest, origin);
  }

  lemma ReturnKeepsSeparate(pool: seq<Buffer>, out: seq<Buffer>, i: nat)
    requires AddressesDiffer(pool + out) && i < |out|
    ensures AddressesDiffer((pool + [out[i]]) + RemoveAt(out, i))
  {
    var k, all, after := |pool|, pool + out, (pool + [out[i]]) + RemoveAt(out, i);
    var origin := (a: nat) => if a < k then a else if a == k then k + i else if a <= k + i then a - 1 else a;
    forall a | 0 <= a < |after| ensures after[a] == all[origin(a)] {
    }
    Rearranged(all, after, origin);
  }

  // ----- what a request comes to

  /** By how much the pool must grow to serve a request: it has no buffer, or reuses the last one. */
  function Growth(buffers: seq<Buffer>, request: nat): nat {
    if buffers == [] then request
    else if buffers[|buffers| - 1].size < request then request - buffers[|buffers| - 1].size
    else 0
  }

  predicate Admitted(buffers: seq<Buffer>, size: nat, max: nat, request: nat) {
    AddSize(size, Growth(buffers, request)) <= max
  }

  /** The growth that is added to the count. A buffer that could not be moved is not counted, one that could not be
      made is. */
  function Counted(buffers: seq<Buffer>, size: nat, max: nat, request: nat, block: Option<int>): nat {
    if Admitted(buffers, size, max, request) && (buffers == [] || block.Some?) then Growth(buffers, request) else 0
  }

  /** The pooled buffer when it is large enough; a block of the size requested when the growth is admitted and the
      allocator answers; else nothing. */
  function Served(buffers: seq<Buffer>, size: nat, max: nat, request: nat, block: Option<int>): (r: Option<Buffer>)
    ensures r.Some? ==> r.value.size >= request
  {
    if buffers != [] && buffers[|buffers| - 1].size >= request then Some(buffers[|buffers| - 1])
    else if Admitted(buffers, size, max, request) && block.Some? then Some(Buffer(block.value, request))
    else None
  }

  class BufferPool {
    const max: nat
    var buffers: seq<Buffer>
    var size: nat
    ghost var out: seq<Buffer>  // handed out and not yet returned
    ghost var lost: nat         // bytes of buffers that were dropped, or counted and never allocated

    constructor (max: nat)
      requires max < SIZE_MODULUS
      ensures Bounded() && Accounted() && Separate() && this.max == max && buffers == out == [] && lost == 0
    {
      this.max := max;
      buffers, size, out, lost := [], 0, [], 0;
    }

    ghost predicate Bounded()
      reads this
    {
      size <= max < SIZE_MODULUS
    }

    /** Every counted byte is pooled, handed out, or lost. */
    ghost predicate Accounted()
      reads this
    {
      size == Bytes(buffers) + Bytes(out) + lost
    }

    /** No two buffers share memory; in particular none is both pooled and handed out. */
    ghost predicate Separate()
      reads this
    {
      AddressesDiffer(buffers + out)
    }

    /** `allocate`. `block` is what the allocator answers, if asked: the address of a new or moved block, or nothing.
        The bound on `size_` and the size of the result hold for every request. The account survives exactly when
        the pool and its growth together stay in the range of `size_t`, or the growth is never counted. */
    method Allocate(request: nat, block: Option<int>) returns (result: Option<Buffer>)
      requires Bounded() && Accounted() && Separate() && request < SIZE_MODULUS
      requires block.Some? ==> !Uses(AllButLast(buffers) + out, block.value)
      modifies this
      ensures Bounded() && Separate()
      ensures result == old(Served(buffers, size, max, request, block))
      ensures size == old(AddSize(size, Counted(buffers, size, max, request, block)))
      ensures Accounted() <==>
              old(size + Growth(buffers, request)) < SIZE_MODULUS || (old(buffers) != [] && block.None?)
      // the last pooled buffer serves a request it can hold, and nothing else changes
      ensures old(buffers) != [] && old(buffers[|buffers| - 1].size) >= request ==>
                result == Some(old(buffers[|buffers| - 1])) && size == old(size) && lost == old(lost)
      // an empty pool makes a buffer when the bound allows it and the allocator answers
      ensures old(buffers) == [] && old(size) + request <= max ==>
                && size == old(size) + request
                && result == if block.Some? then Some(Buffer(block.value, request)) else None
      ensures old(buffers) == [] && max < old(size) + request < SIZE_MODULUS ==> result == None && size == old(size)
      // a pooled buffer that is too small grows under the same conditions
      ensures old(buffers) != [] && old(buffers[|buffers| - 1].size) < request ==>
                var difference := request - old(buffers[|buffers| - 1].size);
                && (old(size) + difference <= max && block.Some? ==>
                      result == Some(Buffer(block.value, request)) && size == old(size) + difference)
                && (block.None? || max < old(size) + difference < SIZE_MODULUS ==>
                      result == None && size == old(size) && lost == old(lost + buffers[|buffers| - 1].size))
      ensures out == if result.Some? then old(out) + [result.value] else old(out)
      ensures buffers == AllButLast(old(buffers))
      ensures lost == old(lost) + if result.Some? then 0
                                  else if old(buffers) == [] then old(Counted(buffers, size, max, request, block))
                                  else old(buffers)[|old(buffers)| - 1].size
    {
      if buffers == [] {
        result := AllocateNew(request, block);
      } else {
        result := Reuse(request, block);
      }
    }

    /** The branch for an empty pool. */
    method AllocateNew(request: nat, block: Option<int>) returns (result: Option<Buffer>)
      requires Bounded() && Accounted() && Separate() && request < SIZE_MODULUS && buffers == []
      requires block.Some? ==> !Uses(buffers + out, block.value)
      modifies this`size, this`out, this`lost
      ensures Bounded() && Separate()
      ensures result == old(Served(buffers, size, max, request, block))
      ensures size == old(AddSize(size, Counted(buffers, size, max, request, block)))
      ensures Accounted() <==> old(size) + request < SIZE_MODULUS
      ensures out == if result.Some? then old(out) + [result.value] else old(out)
      ensures lost == old(lost) + if result.Some? then 0 else old(Counted(buffers, size, max, request, block))
    {
      if AddSize(size, request) > max {
        return None;
      }
      size := AddSize(size, request);
      if block.None? {
        lost := lost + request;
        return None;
      }
      var buffer := Buffer(block.value, request);
      HandOut(buffer);
      return Some(buffer);
    }

    /** The branch that takes the last pooled buffer, and drops it when it cannot grow. */
    method Reuse(request: nat, block: Option<int>) returns (result: Option<Buffer>)
      requires Bounded() && Accounted() && Separate() && request < SIZE_MODULUS && buffers != []
      requires block.Some? ==> !Uses(AllButLast(buffers) + out, block.value)
      modifies this
      ensures Bounded() && Separate()
      ensures result == old(Served(buffers, size, max, request, block))
      ensures size == old(AddSize(size, Counted(buffers, size, max, request, block)))
      ensures Accounted() <==> old(size + Growth(buffers, request)) < SIZE_MODULUS || block.None?
      ensures out == if result.Some? then old(out) + [result.value] else old(out)
      ensures buffers == AllButLast(old(buffers))
      ensures lost == old(lost) + if result.Some? then 0 else old(buffers)[|old(buffers)| - 1].size
    {
      var buffer := buffers[|buffers| - 1];
      PopKeepsSeparate(buffers, out);
      buffers := buffers[..|buffers| - 1];
      if buffer.size < request {
        var difference := request - buffer.size;
        if AddSize(size, difference) > max {
          lost := lost + buffer.size;
          return None;
        }
        if block.None? {
          lost := lost + buffer.size;
          return None;
        }
        size := AddSize(size, difference);
        buffer := Buffer(block.value, request);
      }
      HandOut(buffer);
      return Some(buffer);
    }

    ghost method HandOut(buffer: Buffer)
      requires Separate() && !Uses(buffers + out, buffer.data)
      modifies this`out
      ensures Separate() && out == old(out) + [buffer] && Bytes(out) == Bytes(old(out)) + buffer.size
    {
      BytesAppend(out, [buffer]);
      BytesOfOne(buffer);
      assert buffers + (out + [buffer]) == (buffers + out) + [buffer];
      out := out + [buffer];
    }

    /** `deallocate`, for a buffer that was handed out. */
    method Deallocate(buffer: Buffer, ghost i: nat)
      requires Bounded() && Accounted() && Separate() && i < |out| && out[i] == buffer
      modifies this`buffers, this`out
      ensures Bounded() && Accounted() && Separate()
      ensures buffers == old(buffers) + [buffer] && out == RemoveAt(old(out), i)
    {
      BytesWithout(out, i);
      BytesAppend(buffers, [buffer]);
      BytesOfOne(buffer);
      ReturnKeepsSeparate(buffers, out, i);
      buffers := buffers + [buffer];
      out := RemoveAt(out, i);
    }
  }

  /** A returned buffer serves the next request that it can hold: the same memory again, and nothing new counted. */
  method ReturnedServesNext(max: nat, first: nat, next: nat, block: Option<int>)
    returns (pool: BufferPool, buffer: Option<Buffer>)
    requires next <= first <= max < SIZE_MODULUS && (block.Some? ==> block.value != 1)
    ensures fresh(pool) && buffer == Some(Buffer(1, first)) && pool.size == first && pool.lost == 0
    ensures pool.Accounted() && pool.buffers == [] && pool.out == [Buffer(1, first)]
  {
    pool := new BufferPool(max);
    var a := pool.Allocate(first, Some(1));
    pool.Deallocate(a.value, 0);
    buffer := pool.Allocate(next, block);
  }

  /** Two requests that together come to the range of `size_t`: both are served, the pool counts nothing, and holds
      out more than it may. */
  method WrappedRequest(max: nat, first: nat) returns (pool: BufferPool)
    requires 0 < first <= max < SIZE_MODULUS
    ensures fresh(pool) && pool.max == max && pool.size == 0
    ensures Bytes(pool.out) == SIZE_MODULUS && !pool.Accounted()
  {
    pool := new BufferPool(max);
    var a := pool.Allocate(first, Some(1));
    var b := pool.Allocate(SIZE_MODULUS - first, Some(2));
    assert pool.out == [Buffer(1, first)] + [Buffer(2, SIZE_MODULUS - first)];
    BytesAppend([Buffer(1, first)], [Buffer(2, SIZE_MODULUS - first)]);
    BytesOfOne(Buffer(1, first));
    BytesOfOne(Buffer(2, SIZE_MODULUS - first));
  }
}
