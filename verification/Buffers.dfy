/**
 Ref-counted blocks, the pool that recycles them, the slices that share them and the `IoBuffer`
 that appends to them: src/buffer.cpp in place, on the heap.

 Ghost state names the holders of every block; the pool's invariant ties the reference counts and
 the free list to them.  A slice object changes hands when C++ moves it; copying makes a new one.
 */
module Buffers {
  import opened Resp
  import opened Framing

  class BufferBlock {
    const data: array<Byte>
    var begin: nat
    var end: nat
    var refcount: int
    ghost var listedBy: IoBuffer?        // the buffer that lists it
    ghost var heldBy: set<BufferSlice>   // the slices that share it

    constructor (capacity: nat)
      ensures fresh(data) && data.Length == capacity
      ensures begin == end == 0 && refcount == 1 && listedBy == null && heldBy == {}
    {
      data := new Byte[capacity](_ => 0);
      begin, end, refcount := 0, 0, 1;
      listedBy, heldBy := null, {};
    }

    ghost predicate Shaped()
      reads `begin, `end
    {
      begin <= end <= data.Length
    }

    ghost function Readable(): Bytes
      reads `begin, `end, data
    {
      if Shaped() then data[begin..end] else []
    }
  }

  class BufferSlice {
    const block: BufferBlock
    const offset: nat
    const length: nat

    constructor (block: BufferBlock, offset: nat, length: nat)
      ensures this.block == block && this.offset == offset && this.length == length
    {
      this.block, this.offset, this.length := block, offset, length;
    }

    function Text(): Bytes
      reads block.data
    {
      if offset + length <= block.data.Length then block.data[offset..offset + length] else []
    }
  }

  ghost function Arrays(q: seq<BufferBlock>): set<array<Byte>> { set i | 0 <= i < |q| :: q[i].data }

  /** The bytes readable from a list of blocks, in order. */
  ghost function Joined(q: seq<BufferBlock>): Bytes
    reads q`begin, q`end, Arrays(q)
  {
    if q == [] then [] else q[0].Readable() + Joined(q[1..])
  }

  /** The bytes of a chain of slices, in order. */
  ghost function ChainText(q: seq<BufferSlice>): Bytes
    reads set i | 0 <= i < |q| :: q[i].block.data
  {
    if q == [] then [] else ChainText(q[..|q| - 1]) + q[|q| - 1].Text()
  }

  function Lengths(q: seq<BufferSlice>): nat {
    if q == [] then 0 else Lengths(q[..|q| - 1]) + q[|q| - 1].length
  }

  lemma {:induction false} LengthsConcat(a: seq<BufferSlice>, b: seq<BufferSlice>)
    ensures Lengths(a + b) == Lengths(a) + Lengths(b)
  {
    if b == [] {
      assert a + b == a;
    } else {
      LengthsConcat(a, b[..|b| - 1]);
      assert (a + b)[..|a + b| - 1] == a + b[..|b| - 1];
    }
  }

  lemma {:induction false} ChainConcat(a: seq<BufferSlice>, b: seq<BufferSlice>)
    ensures ChainText(a + b) == ChainText(a) + ChainText(b)
  {
    hide BufferSlice.Text;
    if b == [] {
      assert a + b == a;
    } else {
      ChainConcat(a, b[..|b| - 1]);
      assert (a + b)[..|a + b| - 1] == a + b[..|b| - 1];
    }
  }

  lemma ChainMore(q: seq<BufferSlice>, s: BufferSlice)
    ensures ChainText(q + [s]) == ChainText(q) + s.Text()
  {
    var more := q + [s];
    assert more != [] && more[|more| - 1] == s && more[..|more| - 1] == q;
  }

  twostate lemma {:induction false} ChainFrame(q: seq<BufferSlice>)
    requires forall i :: 0 <= i < |q| ==> q[i].Text() == old(q[i].Text())
    ensures ChainText(q) == old(ChainText(q))
  {
    hide BufferSlice.Text;
    if q != [] { ChainFrame(q[..|q| - 1]); }
  }

  /** A frame in flight: slices in order, and their total length. */
  class BufferChain {
    var slices: seq<BufferSlice>
    var total: nat

    constructor ()
      ensures Valid() && slices == []
    {
      slices, total := [], 0;
    }

    ghost predicate Valid()
      reads this
    {
      total == Lengths(slices)
    }

    /** The slices are alive and no two are the same object. */
    ghost predicate Alive(pool: BlockPool)
      reads `slices, pool`slices
    {
      && (forall i :: 0 <= i < |slices| ==> slices[i] in pool.slices)
      && (forall i, j :: 0 <= i < j < |slices| ==> slices[i] != slices[j])
    }

    method Append(slice: BufferSlice)
      requires Valid()
      modifies this
      ensures Valid() && slices == old(slices) + [slice]
    {
      total := total + slice.length;
      slices := slices + [slice];
      assert slices[..|slices| - 1] == old(slices);
    }

    /** `appendChain`: the bytes of `chain` move behind this chain's, and `chain` is left empty. */
    method AppendChain(chain: BufferChain)
      requires Valid() && chain.Valid() && chain != this
      modifies this, chain
      ensures Valid() && chain.Valid()
      ensures slices == old(slices) + old(chain.slices) && chain.slices == []
      ensures ChainText(slices) == old(ChainText(slices)) + old(ChainText(chain.slices)) && ChainText(chain.slices) == []
    {
      hide ChainText;
      var i := 0;
      assert chain.slices[..0] == [];
      while i < |chain.slices|
        invariant i <= |chain.slices| && Valid() && unchanged(chain)
        invariant slices == old(slices) + chain.slices[..i]
      {
        Append(chain.slices[i]);
        i := i + 1;
      }
      assert chain.slices[..i] == chain.slices;
      chain.slices, chain.total := [], 0;
      ChainFrame(old(slices));
      ChainFrame(old(chain.slices));
      ChainConcat(old(slices), old(chain.slices));
      NoSlices();
    }

    lemma Nothing(pool: BlockPool)
      requires slices == []
      ensures Alive(pool) && SliceSet(slices) == {}
    {
    }

    lemma InPool(pool: BlockPool)
      requires Alive(pool)
      ensures forall i :: 0 <= i < |slices| ==> slices[i] in pool.slices
      ensures forall i, j :: 0 <= i < j < |slices| ==> slices[i] != slices[j]
    {
    }

    lemma StillAlive(pool: BlockPool)
      requires forall i :: 0 <= i < |slices| ==> slices[i] in pool.slices
      requires forall i, j :: 0 <= i < j < |slices| ==> slices[i] != slices[j]
      ensures Alive(pool)
    {
    }

    lemma NoSlices()
      ensures ChainText([]) == []
    {
    }
  }

  lemma {:induction false} JoinedAppend(q: seq<BufferBlock>, b: BufferBlock)
    ensures Joined(q + [b]) == Joined(q) + b.Readable()
  {
    hide BufferBlock.Readable;
    if q == [] {
      assert q + [b] == [b] && [b][1..] == [];
    } else {
      JoinedAppend(q[1..], b);
      assert (q + [b])[1..] == q[1..] + [b];
    }
  }

  twostate lemma {:induction false} JoinedFrame(q: seq<BufferBlock>)
    requires forall i :: 0 <= i < |q| ==> q[i].Readable() == old(q[i].Readable())
    ensures Joined(q) == old(Joined(q))
  {
    hide BufferBlock.Readable;
    if q != [] { JoinedFrame(q[1..]); }
  }

  datatype BufferState = BufferState(blocks: seq<BufferBlock>, readable: nat, linearized: Bytes, linearizedOffset: nat, contents: Bytes)

  datatype Sight = Sight(slices: map<BufferSlice, Bytes>, buffers: map<IoBuffer, BufferState>)

  ghost predicate Kept(before: Sight, after: Sight) {
    && (forall s :: s in before.slices ==> s in after.slices && after.slices[s] == before.slices[s])
    && (forall y :: y in before.buffers ==> y in after.buffers && after.buffers[y] == before.buffers[y])
  }

  /** What is left to see once some slices are gone. */
  ghost function Without(v: Sight, gone: set<BufferSlice>): Sight {
    Sight(map s | s in v.slices && s !in gone :: v.slices[s], v.buffers)
  }

  lemma WithoutNone(v: Sight)
    ensures Kept(Without(v, {}), v)
  {
  }

  lemma WithoutMore(v: Sight, gone: set<BufferSlice>, before: Sight, s: BufferSlice, after: Sight)
    requires Kept(Without(v, gone), before) && Kept(Without(before, {s}), after)
    ensures Kept(Without(v, gone + {s}), after)
  {
  }

  lemma Same(a: Sight)
    ensures Kept(a, a)
  {
  }

  lemma KeptTwice(a: Sight, b: Sight, c: Sight)
    requires Kept(a, b) && Kept(b, c)
    ensures Kept(a, c)
  {
  }

  predicate Among(q: seq<BufferBlock>, p: seq<BufferBlock>) { forall i :: 0 <= i < |q| ==> q[i] in p }

  predicate DistinctBlocks(q: seq<BufferBlock>) { forall i, j :: 0 <= i < j < |q| ==> q[i] != q[j] }

  class BlockPool {
    const blockSize: nat
    var free: seq<BufferBlock>
    ghost var blocks: set<BufferBlock>                 // every block this pool has made
    ghost var owner: map<array<Byte>, BufferBlock>     // whose memory an array is
    ghost var loose: set<BufferBlock>                  // handed out by acquire, not yet in a buffer
    ghost var buffers: set<IoBuffer>                   // living buffers
    ghost var slices: set<BufferSlice>                 // living slices

    constructor (blockSize: nat)
      requires 0 < blockSize
      ensures Valid() && this.blockSize == blockSize
      ensures blocks == {} && buffers == {} && slices == {} && free == []
    {
      this.blockSize := blockSize;
      free, blocks, loose, buffers, slices, owner := [], {}, {}, {}, {}, map[];
    }

    /** Block sizes and positions; no two blocks share memory. */
    ghost predicate Shapes()
      reads this`blocks, this`owner, blocks`begin, blocks`end
    {
      forall b :: b in blocks ==>
        b.data.Length == blockSize && b.Shaped() && b.data in owner && owner[b.data] == b
    }

    /** The free list holds blocks of this pool, none twice. */
    ghost predicate FreeList()
      reads this`blocks, this`free, this`loose
    {
      DistinctBlocks(free) && (forall b :: b in free ==> b in blocks) && loose <= blocks
    }

    /** The number of holders of a block. */
    ghost function Holders(b: BufferBlock): nat
      reads this`loose, b`listedBy, b`heldBy
    {
      (if b in loose then 1 else 0) + (if b.listedBy != null then 1 else 0) + |b.heldBy|
    }

    /** A block is free exactly when nobody holds it, and counts its holders otherwise; `debt` is about to be released. */
    ghost predicate Exact(debt: BufferBlock?)
      reads this`blocks, this`free, this`loose, blocks`refcount, blocks`listedBy, blocks`heldBy
    {
      && (forall b :: b in blocks && b != debt ==>
            (b in free <==> Holders(b) == 0) && (b !in free ==> b.refcount == Holders(b)))
      && (debt != null ==> debt in blocks && debt !in free && debt.refcount == Holders(debt) + 1)
    }

    /** `listedBy` names the one buffer whose list contains the block. */
    ghost predicate Lists()
      reads this`blocks, this`buffers, blocks`listedBy, buffers`blocks
    {
      && (forall x :: x in buffers ==> DistinctBlocks(x.blocks))
      && (forall x, i :: x in buffers && 0 <= i < |x.blocks| ==> x.blocks[i] in blocks && x.blocks[i].listedBy == x)
      && (forall b :: b in blocks && b.listedBy != null ==> b.listedBy in buffers && b in b.listedBy.blocks)
    }

    /** `heldBy` is the set of living slices of the block, each over bytes already written. */
    ghost predicate Shares()
      reads this`blocks, this`slices, blocks`heldBy, blocks`end
    {
      && (forall s :: s in slices ==> s.block in blocks && s in s.block.heldBy && s.offset + s.length <= s.block.end)
      && (forall b, s :: b in blocks && s in b.heldBy ==> s in slices && s.block == b)
    }

    ghost predicate Owing(debt: BufferBlock?)
      reads this, blocks, buffers`blocks
    {
      0 < blockSize && Shapes() && FreeList() && Exact(debt) && Lists() && Shares()
    }

    ghost predicate Valid()
      reads this, blocks, buffers`blocks
    {
      Owing(null)
    }

    lemma Parts(debt: BufferBlock?)
      ensures Owing(debt) <==> 0 < blockSize && Shapes() && FreeList() && Exact(debt) && Lists() && Shares()
      ensures Valid() <==> Owing(null)
    {
    }

    lemma FreeIsUnheld()
      requires Valid()
      ensures forall b :: b in free ==> b.listedBy == null && b.heldBy == {} && b !in loose
      ensures forall b :: b in free ==> b.data in owner && owner[b.data] == b && b.data.Length == blockSize
      ensures forall x, i :: x in buffers && 0 <= i < |x.blocks| ==> x.blocks[i] in blocks && x.blocks[i] !in free
      ensures forall s :: s in slices ==> s.block in blocks && s.block !in free
    {
    }

    // A new, unheld block joins the pool.
    twostate lemma ListsGrow(new b: BufferBlock)
      requires old(Lists()) && blocks == old(blocks) + {b} && b.listedBy == null && buffers == old(buffers)
      requires forall c :: c in old(blocks) && c != b ==> c.listedBy == old(c.listedBy)
      requires forall x :: x in old(buffers) ==> x.blocks == old(x.blocks)
      requires forall x, i :: x in old(buffers) && 0 <= i < |x.blocks| ==> x.blocks[i] != b
      ensures Lists()
    {
    }

    twostate lemma SharesGrow(new b: BufferBlock)
      requires old(Shares()) && blocks == old(blocks) + {b} && b.heldBy == {} && slices == old(slices)
      requires forall c :: c in old(blocks) && c != b ==> c.heldBy == old(c.heldBy) && c.end == old(c.end)
      requires forall s :: s in old(slices) ==> s.block != b
      ensures Shares()
    {
    }

    twostate lemma ExactGrow(new b: BufferBlock)
      requires old(Exact(null)) && blocks == old(blocks) + {b} && loose == old(loose) + {b} && b !in old(loose)
      requires b.listedBy == null && b.heldBy == {} && b.refcount == 1 && b !in free
      requires forall c :: c in old(blocks) && c != b ==> unchanged(c) && (c in free <==> c in old(free))
      ensures Exact(null)
    {
      assert Holders(b) == 1;
      forall c | c in blocks && c != b ensures Holders(c) == old(Holders(c)) {}
    }

    twostate lemma ShapesGrow(new b: BufferBlock)
      requires old(Shapes()) && blocks == old(blocks) + {b} && b.data.Length == blockSize && b.Shaped()
      requires owner == old(owner)[b.data := b] && (b in old(blocks) || b.data !in old(owner))
      requires forall c :: c in old(blocks) && c != b ==> unchanged(c)
      ensures Shapes()
    {
    }

    // One more slice of a block.
    twostate lemma ExactMore(b: BufferBlock, new s: BufferSlice)
      requires old(Exact(null)) && b in old(blocks) && b !in old(free)
      requires free == old(free) && loose == old(loose) && blocks == old(blocks)
      requires s !in old(b.heldBy) && b.heldBy == old(b.heldBy) + {s} && b.refcount == old(b.refcount) + 1
      requires b.listedBy == old(b.listedBy)
      requires forall c :: c in blocks && c != b ==> unchanged(c)
      ensures Exact(null)
    {
    }

    twostate lemma SharesMore(b: BufferBlock, new s: BufferSlice)
      requires old(Shares()) && b in old(blocks) && s.block == b && s.offset + s.length <= b.end
      requires blocks == old(blocks) && slices == old(slices) + {s}
      requires b.heldBy == old(b.heldBy) + {s} && b.end == old(b.end)
      requires forall c :: c in blocks && c != b ==> unchanged(c)
      ensures Shares()
    {
    }

    /** A buffer without blocks joins. */
    twostate lemma Welcome(new x: IoBuffer)
      requires old(Valid()) && x !in old(buffers) && buffers == old(buffers) + {x} && x.blocks == []
      requires unchanged(`free) && unchanged(`blocks) && unchanged(`owner) && unchanged(`loose) && unchanged(`slices)
      requires unchanged(blocks) && forall y :: y in old(buffers) && y != x ==> unchanged(y)
      ensures Valid()
    {
    }

    /** Blocks are only ever added, and come with memory of their own. */
    twostate predicate NewMemory()
      reads *
    {
      old(blocks) <= blocks && forall b :: b in blocks && b !in old(blocks) ==> fresh(b) && fresh(b.data)
    }

    lemma FreeFacts()
      requires Valid()
      ensures forall b :: b in free ==> b in blocks
    {
      hide Shapes, Exact, Lists, Shares;
    }

    lemma ListedAreHeld()
      requires Valid()
      ensures forall b :: b in blocks && b.listedBy != null ==> b !in free
    {
      hide Shapes, FreeList, Lists, Shares;
    }

    /** What the holders of slices, and of buffers other than `x`, can see. */
    ghost function Seen(x: IoBuffer?): Sight
      reads *
    {
      Sight(map s | s in slices :: s.Text(),
            map y | y in buffers && y != x :: BufferState(y.blocks, y.readable, y.linearized, y.linearizedOffset, y.Contents()))
    }

    /** Every living slice keeps its bytes, and every buffer but `x` its fields and its contents. */
    twostate predicate Undisturbed(x: IoBuffer?)
      reads *
    {
      Kept(old(Seen(x)), Seen(x))
    }

    /** No block that a buffer other than `x` lists has been touched. */
    twostate predicate OthersSteady(x: IoBuffer?)
      reads *
    {
      && (forall y :: y in old(buffers) && y != x ==> y in buffers && unchanged(y))
      && (forall c :: c in old(blocks) && old(c.listedBy) != null && old(c.listedBy) != x ==> c.Readable() == old(c.Readable()))
    }

    twostate lemma OthersKept(x: IoBuffer?)
      requires old(Valid()) && OthersSteady(x)
      requires forall s :: s in old(slices) ==> s in slices && s.Text() == old(s.Text())
      ensures Undisturbed(x)
    {
      hide Shapes, FreeList, Exact, Shares, Joined, BufferSlice.Text;
      if y :| y in old(buffers) && y != x && y.Contents() != old(y.Contents()) {
        JoinedFrame(y.blocks);
        assert false;
      }
    }

    twostate lemma Newcomer(new x: IoBuffer)
      requires x !in old(buffers) && Undisturbed(null)
      ensures Kept(old(Seen(null)), Seen(x))
    {
    }

    lemma Absent(x: IoBuffer)
      requires x !in buffers
      ensures Seen(x) == Seen(null)
    {
    }

    /** What every operation that leaves others undisturbed means for slices in somebody's hands. */
    twostate lemma SlicesKept(x: IoBuffer?)
      requires Undisturbed(x)
      ensures forall s :: s in old(slices) ==> s in slices && s.Text() == old(s.Text())
    {
      assert forall s :: s in old(slices) ==> s in old(Seen(x)).slices;
    }

    /** ... and for the other buffers. */
    twostate lemma BuffersKept(x: IoBuffer?)
      requires Undisturbed(x)
      ensures forall y :: y in old(buffers) && y != x ==> y in buffers && y.Steady()
    {
      hide IoBuffer.Contents;
      assert forall y :: y in old(buffers) && y != x ==> y in old(Seen(x)).buffers;
    }

    /** A block in use counts, exactly, the buffers that list it, the slices of it and the callers it was handed to. */
    lemma CountsHolders(b: BufferBlock)
      requires Valid() && b in blocks && b !in free
      ensures b.refcount == |set x | x in buffers && b in x.blocks| + |set s | s in slices && s.block == b| + (if b in loose then 1 else 0)
      ensures b.refcount > 0
    {
      hide Shapes, FreeList;
      var listing := set x | x in buffers && b in x.blocks;
      assert b.heldBy == set s | s in slices && s.block == b;
      if b.listedBy == null {
        assert listing == {};
      } else {
        assert listing == {b.listedBy};
      }
    }

    /** A block is in the free list, once, exactly when nothing lists or shares it. */
    lemma FreeIffUnheld(b: BufferBlock)
      requires Valid() && b in blocks
      ensures b in free <==> b !in loose && (forall x :: x in buffers ==> b !in x.blocks) && (forall s :: s in slices ==> s.block != b)
      ensures DistinctBlocks(free)
    {
      hide Shapes;
      if b.listedBy != null { assert b in b.listedBy.blocks; }
      if s :| s in b.heldBy { assert s in slices; }
    }

    lemma SliceFacts()
      requires Valid()
      ensures forall s :: s in slices ==>
                s.block in blocks && s in s.block.heldBy && s.offset + s.length <= s.block.end <= s.block.data.Length
    {
      hide FreeList, Exact, Lists;
    }

    lemma BlockFacts()
      requires Valid()
      ensures forall b :: b in blocks ==>
                b.Shaped() && b.data.Length == blockSize && b.data in owner && owner[b.data] == b
    {
      hide FreeList, Exact, Lists, Shares;
    }

    /** Memory behind the committed end of a block belongs to no slice and is readable from no block. */
    twostate lemma WrittenBehind(b: BufferBlock)
      requires Valid() && b in blocks && unchanged(this) && unchanged(blocks)
      requires forall i :: 0 <= i < b.end && i < b.data.Length ==> b.data[i] == old(b.data[i])
      requires forall c :: c in blocks && c.data != b.data ==> unchanged(c.data)
      ensures forall s :: s in slices ==> s.Text() == old(s.Text())
      ensures forall c :: c in blocks ==> c.Readable() == old(c.Readable())
    {
      hide Owing;
      SliceFacts();
      BlockFacts();
    }

    /** More of a block is committed. */
    twostate lemma ExtendShares(b: BufferBlock)
      requires old(Shares()) && unchanged(this) && b in blocks && old(b.end) <= b.end && b.heldBy == old(b.heldBy)
      requires forall c :: c in blocks && c != b ==> unchanged(c)
      ensures Shares()
    {
    }

    twostate lemma MoveShapes(b: BufferBlock)
      requires old(Shapes()) && unchanged(this) && b in blocks && b.Shaped()
      requires forall c :: c in blocks && c != b ==> unchanged(c)
      ensures Shapes()
    {
    }

    /** `acquire`: a recycled block if there is one, else a new one; empty, with one reference. */
    method Acquire() returns (b: BufferBlock)
      requires Valid()
      modifies this`free, this`blocks, this`owner, this`loose, free`begin, free`end, free`refcount
      ensures Valid()
      ensures b !in old(loose) && loose == old(loose) + {b} && blocks == old(blocks) + {b}
      ensures b.begin == b.end == 0 && b.refcount == 1 && b.listedBy == null && b.heldBy == {}
      ensures free == (if old(free) == [] then [] else old(free)[..|old(free)| - 1])
      ensures b in old(free) || (fresh(b) && fresh(b.data))
      ensures NewMemory()
      ensures forall c :: c in old(blocks) && c != b ==> unchanged(c)
    {
      hide Owing, Shapes, FreeList, Exact, Lists, Shares, Holders;
      Parts(null);
      FreeFacts();
      FreeIsUnheld();
      if free == [] {
        b := new BufferBlock(blockSize);
      } else {
        b := free[|free| - 1];
        free := free[..|free| - 1];
        b.begin, b.end, b.refcount := 0, 0, 1;
      }
      blocks, owner, loose := blocks + {b}, owner[b.data := b], loose + {b};
      FreeShrinks(b);
      ListsGrow(b);
      SharesGrow(b);
      ExactGrow(b);
      ShapesGrow(b);
      Parts(null);
    }

    twostate lemma FreeShrinks(new b: BufferBlock)
      requires old(FreeList()) && blocks == old(blocks) + {b} && loose == old(loose) + {b}
      requires free == (if old(free) == [] then [] else old(free)[..|old(free)| - 1])
      requires old(free) != [] ==> b == old(free)[|old(free)| - 1]
      ensures FreeList() && b !in free
    {
    }

    /** `release` and `recycle`: the block returns to the free list when its last holder lets go. */
    method Release(b: BufferBlock)
      requires Owing(b)
      modifies this`free, b`refcount, b`begin, b`end
      ensures Valid()
      ensures free == old(free) + (if Holders(b) == 0 then [b] else [])
      ensures Holders(b) != 0 ==> b.begin == old(b.begin) && b.end == old(b.end)
    {
      hide Shapes, FreeList, Lists, Exact, Shares, Holders;
      OwedFacts(b);
      b.refcount := b.refcount - 1;
      if b.refcount == 0 {
        b.begin, b.end, b.refcount := 0, 0, 1;
        free := free + [b];
      }
      PaidExact(b);
      PaidShapes(b);
      PaidShares(b);
      PaidFree(b);
    }

    lemma OwedFacts(b: BufferBlock)
      requires Owing(b)
      ensures b in blocks && b !in free && b.refcount == Holders(b) + 1
      ensures Holders(b) == 0 ==> b.heldBy == {} && b.listedBy == null
    {
      hide Shapes, FreeList, Lists, Shares;
    }

    // The debt is paid: a reference is returned, and with the last one the block itself.
    twostate predicate Paid(b: BufferBlock)
      reads *
    {
      && b in blocks && b !in old(free) && blocks == old(blocks)
      && old(b.refcount) == old(Holders(b)) + 1
      && free == old(free) + (if old(Holders(b)) == 0 then [b] else [])
      && (old(Holders(b)) != 0 ==> b.begin == old(b.begin) && b.end == old(b.end) && b.refcount == old(b.refcount) - 1)
      && (old(Holders(b)) == 0 ==> b.begin == b.end == 0)
      && forall c :: c in blocks && c != b ==> unchanged(c)
    }

    twostate lemma PaidExact(b: BufferBlock)
      requires old(Exact(b)) && Paid(b) && loose == old(loose) && b.listedBy == old(b.listedBy) && b.heldBy == old(b.heldBy)
      ensures Exact(null)
    {
      assert Holders(b) == old(Holders(b));
      forall c | c in blocks && c != b ensures Holders(c) == old(Holders(c)) && (c in free <==> c in old(free)) {}
    }

    twostate lemma PaidShapes(b: BufferBlock)
      requires old(Shapes()) && Paid(b) && owner == old(owner)
      ensures Shapes()
    {
      hide Holders;
    }

    twostate lemma PaidShares(b: BufferBlock)
      requires old(Shares()) && Paid(b) && slices == old(slices) && b.heldBy == old(b.heldBy)
      requires old(Holders(b)) == 0 ==> b.heldBy == {}
      ensures Shares()
    {
      hide Holders;
    }

    twostate lemma PaidFree(b: BufferBlock)
      requires old(FreeList()) && Paid(b) && loose == old(loose)
      ensures FreeList()
    {
      hide Holders;
    }

    /** `BufferSlice::retain`: one more holder, of bytes the block already has. */
    method Retain(b: BufferBlock, offset: nat, length: nat) returns (s: BufferSlice)
      requires Valid() && b in blocks && b !in free && offset + length <= b.end
      modifies this`slices, b`refcount, b`heldBy
      ensures Valid() && fresh(s)
      ensures s.block == b && s.offset == offset && s.length == length
      ensures slices == old(slices) + {s} && b.heldBy == old(b.heldBy) + {s} && b.refcount == old(b.refcount) + 1
    {
      hide *;
      Parts(null);
      s := new BufferSlice(b, offset, length);
      b.refcount := b.refcount + 1;
      b.heldBy := b.heldBy + {s};
      slices := slices + {s};
      ExactMore(b, s);
      SharesMore(b, s);
      Parts(null);
    }

    /** `BufferSlice`'s copy constructor: another holder of the same bytes. */
    method CopySlice(s: BufferSlice) returns (t: BufferSlice)
      requires Valid() && s in slices
      modifies this`slices, s.block`refcount, s.block`heldBy
      ensures Valid() && fresh(t) && slices == old(slices) + {t}
      ensures t.Text() == old(s.Text()) && Undisturbed(null)
    {
      hide Owing, Seen, Kept, BufferBlock.Readable;
      SliceFacts();
      SlicesInUse();
      t := Retain(s.block, s.offset, s.length);
      OthersKept(null);
    }

    lemma SlicesInUse()
      requires Valid()
      ensures forall s :: s in slices ==> s.block in blocks && s.block !in free
    {
      hide Shapes, Lists;
    }

    /** `copy` holds the bytes of `done`, by slices of its own on top of those there were `before`. */
    ghost predicate Copying(copy: BufferChain, done: seq<BufferSlice>, start: Sight, before: set<BufferSlice>)
      reads *
    {
      && copy.Valid() && copy.Alive(this) && ChainText(copy.slices) == ChainText(done)
      && slices == before + SliceSet(copy.slices) && before !! SliceSet(copy.slices)
      && Kept(start, Seen(null)) && before <= start.slices.Keys
    }

    /** A second chain over the same bytes. */
    method CopyChain(chain: BufferChain) returns (copy: BufferChain)
      requires Valid() && chain.Alive(this)
      modifies this`slices, blocks`refcount, blocks`heldBy
      ensures Valid() && fresh(copy) && copy.Valid() && copy.Alive(this) && ChainText(copy.slices) == old(ChainText(chain.slices))
      ensures slices == old(slices) + SliceSet(copy.slices) && fresh(SliceSet(copy.slices))
      ensures Undisturbed(null)
    {
      hide Owing, Seen, Kept, ChainText, BufferSlice.Text, BufferChain.Alive, BufferChain.Valid, SliceSet, Copying;
      chain.InPool(this);
      ghost var start := Seen(null);
      copy := new BufferChain();
      SeenFrame(null);
      CopyStarts(copy);
      var i := 0;
      assert chain.slices[..0] == [];
      while i < |chain.slices|
        invariant i <= |chain.slices| && Valid() && unchanged(chain)
        invariant Copying(copy, chain.slices[..i], start, old(slices)) && fresh(slices - old(slices))
      {
        InCopying(copy, chain.slices[..i], start, old(slices));
        SliceFacts();
        CopyNext(copy, chain.slices[i], chain.slices[..i], start, old(slices));
        assert chain.slices[..i + 1] == chain.slices[..i] + [chain.slices[i]];
        i := i + 1;
      }
      assert chain.slices[..i] == chain.slices;
      InCopying(copy, chain.slices, start, old(slices));
      KeptSlices(start);
      ChainFrame(chain.slices);
    }

    lemma CopyStarts(copy: BufferChain)
      requires copy.Valid() && copy.slices == []
      ensures Copying(copy, [], Seen(null), slices)
    {
      hide BufferSlice.Text, IoBuffer.Contents;
    }

    lemma InCopying(copy: BufferChain, done: seq<BufferSlice>, start: Sight, before: set<BufferSlice>)
      requires Copying(copy, done, start, before)
      ensures before <= slices && copy.Valid() && copy.Alive(this) && ChainText(copy.slices) == ChainText(done)
      ensures slices == before + SliceSet(copy.slices) && SliceSet(copy.slices) == slices - before && Kept(start, Seen(null))
    {
      hide ChainText, Seen, Kept;
    }

    /** The copy of `done` becomes a copy of `done` and `s`. */
    method CopyNext(copy: BufferChain, s: BufferSlice, ghost done: seq<BufferSlice>, ghost start: Sight, ghost before: set<BufferSlice>)
      requires Valid() && s in before && (forall j :: 0 <= j < |done| ==> done[j] in before) && Copying(copy, done, start, before)
      modifies this`slices, s.block`refcount, s.block`heldBy, copy
      ensures Valid() && Copying(copy, done + [s], start, before) && fresh(slices - old(slices))
    {
      hide Owing, Seen, Kept, ChainText, BufferSlice.Text, Lengths, BufferChain.Alive;
      copy.InPool(this);
      var t := CopySlice(s);
      SlicesKept(null);
      label Copied:
      copy.Append(t);
      SeenFrame@Copied(null);
      KeptTwice(start, old(Seen(null)), Seen(null));
      ChainFrame(done);
      ChainFrame(old(copy.slices));
      ChainMore(done, s);
      ChainMore(old(copy.slices), t);
      copy.StillAlive(this);
    }

    /** What is left to see after some slices have gone. */
    twostate lemma OthersSeen(new before: Sight, new gone: set<BufferSlice>)
      requires before == old(Seen(null)) && Kept(Without(before, gone), Seen(null)) && slices == old(slices) - gone
      ensures forall y :: y in old(buffers) ==> y in buffers && y.Steady()
      ensures forall s :: s in slices ==> s.Text() == old(s.Text())
    {
      hide IoBuffer.Contents;
      var left := Without(before, gone);
      assert forall y :: y in old(buffers) ==> y in left.buffers && y in Seen(null).buffers;
      assert forall s :: s in slices ==> s in left.slices && left.slices[s] == before.slices[s] && s in Seen(null).slices;
    }

    twostate lemma KeptSlices(start: Sight)
      requires start == old(Seen(null)) && Kept(start, Seen(null))
      ensures forall s :: s in old(slices) ==> s.Text() == old(s.Text())
    {
      assert forall s :: s in old(slices) ==> s in start.slices;
    }

    /** A slice is destroyed: its share goes, and nothing that another holder sees. */
    method Drop(s: BufferSlice)
      requires Valid() && s in slices
      modifies this`slices, this`free, s.block`refcount, s.block`begin, s.block`end, s.block`heldBy
      ensures Valid() && slices == old(slices) - {s}
      ensures free == old(free) + (if Holders(s.block) == 0 then [s.block] else [])
      ensures Kept(Without(old(Seen(null)), {s}), Seen(null))
    {
      hide Owing, Shapes, FreeList, Exact, Lists, Shares, Holders, Seen, Kept;
      Parts(null);
      SliceFacts();
      var b := s.block;
      b.heldBy := b.heldBy - {s};
      slices := slices - {s};
      LetGoExact(s);
      LetGoShares(s);
      Parts(b);
      Release(b);
      StillListed(b);
      DropKept(s);
    }

    lemma StillListed(b: BufferBlock)
      ensures b.listedBy != null ==> Holders(b) != 0
    {
    }

    /** A slice has left its block, which still counts it. */
    twostate lemma LetGoExact(s: BufferSlice)
      requires old(Exact(null)) && s.block in old(blocks) && s in old(s.block.heldBy)
      requires unchanged(`free) && unchanged(`loose) && unchanged(`blocks)
      requires s.block.heldBy == old(s.block.heldBy) - {s} && s.block.refcount == old(s.block.refcount) && s.block.listedBy == old(s.block.listedBy)
      requires forall c :: c in blocks && c != s.block ==> unchanged(c)
      ensures Exact(s.block)
    {
      assert old(s.block.heldBy) == s.block.heldBy + {s};
    }

    twostate lemma LetGoShares(s: BufferSlice)
      requires old(Shares()) && s in old(slices) && unchanged(`blocks) && slices == old(slices) - {s}
      requires s.block.heldBy == old(s.block.heldBy) - {s} && s.block.end == old(s.block.end)
      requires forall c :: c in blocks && c != s.block ==> unchanged(c)
      ensures Shares()
    {
      forall t | t in slices
        ensures t.block in blocks && t in t.block.heldBy && t.offset + t.length <= t.block.end
      {
        assert t in old(slices) && t != s;
      }
      forall b, t | b in blocks && t in b.heldBy
        ensures t in slices && t.block == b
      {
        assert t in old(b.heldBy);
      }
    }

    twostate lemma DropKept(s: BufferSlice)
      requires old(Valid()) && OthersSteady(null) && slices == old(slices) - {s}
      requires forall t :: t in slices ==> t.Text() == old(t.Text())
      ensures Kept(Without(old(Seen(null)), {s}), Seen(null))
    {
      hide Shapes, FreeList, Exact, Shares, Joined, BufferSlice.Text;
      if y :| y in old(buffers) && y.Contents() != old(y.Contents()) {
        JoinedFrame(y.blocks);
        assert false;
      }
    }

    /** A chain is destroyed, slice by slice. */
    method DropChain(chain: BufferChain)
      requires Valid() && chain.Alive(this)
      modifies this`slices, this`free, blocks`refcount, blocks`begin, blocks`end, blocks`heldBy, chain
      ensures Valid() && slices == old(slices) - SliceSet(old(chain.slices)) && chain.slices == []
      ensures Kept(Without(old(Seen(null)), SliceSet(old(chain.slices))), Seen(null))
    {
      hide Owing, Seen, Kept, Without;
      ghost var start := Seen(null);
      ghost var gone: set<BufferSlice> := {};
      var i := 0;
      WithoutNone(start);
      while i < |chain.slices|
        invariant i <= |chain.slices| && Valid() && unchanged(chain)
        invariant gone == SliceSet(chain.slices[..i]) && slices == old(slices) - gone
        invariant Kept(Without(start, gone), Seen(null))
      {
        var s := chain.slices[i];
        SliceFacts();
        ghost var before := Seen(null);
        Drop(s);
        WithoutMore(start, gone, before, s, Seen(null));
        gone := gone + {s};
        i := i + 1;
        assert chain.slices[..i] == chain.slices[..i - 1] + [s];
      }
      assert chain.slices[..i] == chain.slices;
      label Dropped:
      chain.slices, chain.total := [], 0;
      SeenFrame@Dropped(null);
    }

    twostate lemma SeenFrame(x: IoBuffer?)
      requires unchanged(this) && unchanged(buffers) && unchanged(blocks) && old(Valid())
      requires forall b :: b in blocks ==> unchanged(b.data)
      ensures Valid() && Seen(x) == old(Seen(x))
    {
      hide Shapes, FreeList, Exact, Lists, Shares, Joined, BufferBlock.Readable, BufferSlice.Text;
      SliceFacts();
      ListFacts();
      if y :| y in buffers && y.Contents() != old(y.Contents()) {
        JoinedFrame(y.blocks);
        assert false;
      }
    }

    lemma ListFacts()
      requires Valid()
      ensures forall x, i :: x in buffers && 0 <= i < |x.blocks| ==> x.blocks[i] in blocks
    {
      hide Shapes, FreeList, Exact, Shares;
    }

    /** Nothing leaks: once every buffer, slice and loose block is gone, the free list has every block, once. */
    lemma NothingLeaks()
      requires Valid() && buffers == {} && slices == {} && loose == {}
      ensures (set b | b in free) == blocks && |free| == |blocks|
    {
      assert forall b :: b in blocks ==> Holders(b) == 0 && b in free by {
        hide Shapes, FreeList;
        forall b | b in blocks ensures b.heldBy == {} {}
      }
      DistinctCount(free);
    }
  }

  lemma {:induction false} DistinctCount(q: seq<BufferBlock>)
    requires DistinctBlocks(q)
    ensures |set b | b in q| == |q|
  {
    if q != [] {
      DistinctCount(q[1..]);
      assert (set b | b in q) == (set b | b in q[1..]) + {q[0]};
    }
  }

  /** Blocks that all have bytes, but perhaps the last, are at most one more than the bytes. */
  lemma {:induction false} BlocksCount(q: seq<BufferBlock>)
    requires forall i :: 0 <= i < |q| - 1 ==> q[i].Readable() != []
    ensures |q| <= |Joined(q)| + 1
  {
    if |q| > 1 { BlocksCount(q[1..]); }
  }

  class IoBuffer {
    const pool: BlockPool
    var blocks: seq<BufferBlock>
    var readable: nat
    var linearized: Bytes
    var linearizedOffset: nat

    constructor (pool: BlockPool)
      requires pool.Valid()
      modifies pool`buffers
      ensures this.pool == pool && Valid() && pool.buffers == old(pool.buffers) + {this}
      ensures Contents() == [] && Compact() && pool.Undisturbed(null)
    {
      hide BlockPool.Owing, Joined, BufferBlock.Readable, BlockPool.Seen, Kept;
      this.pool := pool;
      blocks, readable, linearized, linearizedOffset := [], 0, [], 0;
      new;
      pool.buffers := pool.buffers + {this};
      pool.Welcome(this);
      NothingListed();
      pool.OthersKept(null);
    }

    function Last(): BufferBlock
      requires blocks != []
      reads `blocks
    {
      blocks[|blocks| - 1]
    }

    /** The byte queue this buffer stands for. */
    ghost function Contents(): Bytes
      reads `blocks, blocks`begin, blocks`end, Arrays(blocks)
    {
      Joined(blocks)
    }

    /** The size is exact, and a cached linear copy, past its offset, is the queue. */
    ghost predicate Accurate()
      reads this, blocks`begin, blocks`end, Arrays(blocks)
    {
      && readable == |Contents()|
      && linearizedOffset <= |linearized|
      && (linearized != [] ==> linearized[linearizedOffset..] == Contents())
    }

    ghost predicate Valid()
      reads this, pool, pool.blocks, pool.buffers`blocks, Arrays(blocks)
    {
      pool.Valid() && this in pool.buffers && Joinable() && Accurate()
    }

    /** No block is kept that is of no use: only the last may be empty, and only while it has room. */
    ghost predicate Compact()
      reads `blocks, blocks`begin, blocks`end
    {
      forall i :: 0 <= i < |blocks| && (i < |blocks| - 1 || blocks[i].end == pool.blockSize) ==> blocks[i].begin < blocks[i].end
    }

    /** Every block of the list belongs to the pool. */
    ghost predicate Joinable()
      reads `blocks, pool`blocks
    {
      forall i :: 0 <= i < |blocks| ==> blocks[i] in pool.blocks
    }

    twostate lemma PushExact(new b: BufferBlock)
      requires old(pool.Exact(null)) && b in old(pool.loose) && b in old(pool.blocks) && old(b.listedBy) == null && b.listedBy == this
      requires pool.loose == old(pool.loose) - {b} && pool.free == old(pool.free) && pool.blocks == old(pool.blocks)
      requires b.refcount == old(b.refcount) && b.heldBy == old(b.heldBy)
      requires forall c :: c in pool.blocks && c != b ==> unchanged(c)
      ensures pool.Exact(null)
    {
      assert pool.Holders(b) == old(pool.Holders(b));
      forall c | c in pool.blocks && c != b ensures pool.Holders(c) == old(pool.Holders(c)) {}
    }

    twostate lemma PushLists(new b: BufferBlock)
      requires old(pool.Lists()) && b in old(pool.blocks) && old(b.listedBy) == null && b.listedBy == this
      requires this in old(pool.buffers) && pool.buffers == old(pool.buffers) && pool.blocks == old(pool.blocks)
      requires blocks == old(blocks) + [b]
      requires forall c :: c in pool.blocks && c != b ==> c.listedBy == old(c.listedBy)
      requires forall x :: x in pool.buffers && x != this ==> x.blocks == old(x.blocks)
      ensures pool.Lists()
    {
    }

    /** What the invariant says of a listed block. */
    lemma Listed(i: nat)
      requires Valid() && i < |blocks|
      ensures blocks[i] in pool.blocks && blocks[i] !in pool.free && blocks[i].listedBy == this
      ensures blocks[i].Shaped() && blocks[i].data.Length == pool.blockSize > 0
      ensures blocks[i].data in pool.owner && pool.owner[blocks[i].data] == blocks[i]
    {
    }

    lemma LastIsLast()
      requires pool.Lists() && this in pool.buffers
      ensures forall i :: 0 <= i < |blocks| - 1 ==> blocks[i] != blocks[|blocks| - 1]
    {
    }

    lemma ListedAreHeld()
      requires Valid()
      ensures forall i :: 0 <= i < |blocks| ==> blocks[i] in pool.blocks && blocks[i] !in pool.free
    {
    }

    /** An empty block that was handed out goes on the list. */
    method ListBlock(b: BufferBlock)
      requires Valid() && b in pool.loose && b in pool.blocks && b.listedBy == null && b.begin == b.end
      modifies `blocks, pool`loose, b`listedBy
      ensures Valid() && Contents() == old(Contents())
      ensures blocks == old(blocks) + [b] && b.listedBy == this && pool.loose == old(pool.loose) - {b}
    {
      hide BlockPool.Shapes, BlockPool.Exact, BlockPool.Lists, BlockPool.Shares, Joined, BufferBlock.Readable;
      pool.loose := pool.loose - {b};
      b.listedBy := this;
      blocks := blocks + [b];
      PushExact(b);
      PushLists(b);
      JoinedFrame(old(blocks));
      JoinedAppend(old(blocks), b);
      EmptyBlock(b);
    }

    /** Neither the fields nor the contents have changed. */
    twostate predicate Steady()
      reads *
    {
      && blocks == old(blocks) && readable == old(readable) && linearized == old(linearized)
      && linearizedOffset == old(linearizedOffset) && Contents() == old(Contents())
    }

    /** A buffer stays good while others of its pool are worked on. */
    twostate lemma StaysValid()
      requires old(Valid()) && pool.Valid() && this in pool.buffers && Steady()
      ensures Valid()
    {
      hide BlockPool.Owing, Contents;
      BlocksKnown();
    }

    /** What happens outside the pool changes nothing here. */
    twostate lemma Untouched()
      requires old(Valid()) && unchanged(this) && unchanged(pool) && unchanged(pool.blocks)
      requires unchanged(pool.buffers) && forall b :: b in pool.blocks ==> unchanged(b.data)
      ensures Valid() && Contents() == old(Contents()) && pool.Seen(this) == old(pool.Seen(this))
    {
      hide Accurate, BlockPool.Owing, BlockPool.Seen, Joined, BufferBlock.Readable;
      pool.SeenFrame(this);
      BlocksKnown();
      AccurateFrame();
    }

    /** Nothing this buffer depends on has changed. */
    twostate lemma AccurateFrame()
      requires old(Accurate()) && unchanged(this)
      requires forall i :: 0 <= i < |blocks| ==> blocks[i].Readable() == old(blocks[i].Readable())
      ensures Accurate() && Contents() == old(Contents())
    {
      JoinedFrame(blocks);
    }

    lemma EmptyBlock(b: BufferBlock)
      ensures b.begin == b.end ==> b.Readable() == []
    {
    }

    method AddBlock()
      requires Valid()
      modifies `blocks, pool`free, pool`blocks, pool`owner, pool`loose, pool.free
      ensures Valid() && Contents() == old(Contents())
      ensures |blocks| == |old(blocks)| + 1 && blocks[..|old(blocks)|] == old(blocks)
      ensures blocks[|blocks| - 1].begin == blocks[|blocks| - 1].end == 0
      ensures forall c :: c in old(pool.blocks) && c !in old(pool.free) ==> unchanged(c)
      ensures pool.NewMemory() && pool.Undisturbed(this) && pool.loose == old(pool.loose)
    {
      hide BlockPool.Owing, Joined, BufferBlock.Readable, Accurate, BlockPool.Holders, BlockPool.Seen, Kept;
      ListedAreHeld();
      pool.ListedAreHeld();
      var b := pool.Acquire();
      AccurateFrame();
      ListBlock(b);
      pool.OthersKept(this);
    }

    /** `reserveWritable`: room at the back, in a block of its own if need be; nothing readable changes. */
    method ReserveWritable() returns (writable: nat)
      requires Valid()
      modifies `blocks, pool`free, pool`blocks, pool`owner, pool`loose, pool.free
      ensures Valid() && Contents() == old(Contents())
      ensures blocks != [] && writable == pool.blockSize - Last().end > 0
      ensures old(blocks) <= blocks && |blocks| <= |old(blocks)| + 1
      ensures blocks == old(blocks) <==> old(blocks) != [] && old(Last().end) < pool.blockSize
      ensures old(Compact()) ==> Compact()
      ensures pool.NewMemory() && pool.Undisturbed(this) && pool.loose == old(pool.loose)
    {
      hide BlockPool.Owing, Joined, BufferBlock.Readable, Accurate, BlockPool.Seen, Kept;
      ListedAreHeld();
      if |blocks| > 0 { Listed(|blocks| - 1); }
      Same(pool.Seen(this));
      if blocks == [] || blocks[|blocks| - 1].end == blocks[|blocks| - 1].data.Length {
        AddBlock();
        Listed(|blocks| - 1);
      }
      writable := blocks[|blocks| - 1].data.Length - blocks[|blocks| - 1].end;
    }

    // ----- writing -----

    /** The memory behind the committed bytes of the last block is filled: by `memcpy`, or by `read`. */
    method Fill(bytes: Bytes)
      requires Valid() && blocks != [] && Last().end + |bytes| <= pool.blockSize
      modifies Last().data
      ensures Valid() && Contents() == old(Contents())
      ensures Last().data.Length == pool.blockSize && Last().data[Last().end..Last().end + |bytes|] == bytes
      ensures old(Compact()) ==> Compact()
      ensures pool.Undisturbed(this)
    {
      hide BlockPool.Owing, Joined, BufferBlock.Readable, BufferSlice.Text, Accurate;
      Listed(|blocks| - 1);
      var b := Last();
      Copy(b.data, b.end, bytes);
      pool.WrittenBehind(b);
      pool.OthersKept(this);
      AccurateFrame();
    }

    /** `commitWrite`: the filled bytes become readable, and the linear copy is dropped. */
    method CommitWrite(n: nat)
      requires Valid() && blocks != [] && Last().end + n <= pool.blockSize
      modifies Last()`end, `readable, `linearized, `linearizedOffset
      ensures Valid() && Last().end == old(Last().end) + n <= Last().data.Length
      ensures Contents() == old(Contents()) + Last().data[old(Last().end)..Last().end]
      ensures old(Compact()) ==> Compact()
      ensures pool.Undisturbed(this)
    {
      hide BlockPool.Exact, BlockPool.FreeList, BlockPool.Lists, BlockPool.Shapes, BlockPool.Shares;
      hide Joined, BufferBlock.Readable, BufferSlice.Text, BlockPool.Seen, Kept;
      Listed(|blocks| - 1);
      ghost var init: seq<BufferBlock> := blocks[..|blocks| - 1];
      var b := Last();
      assert blocks == init + [b];
      JoinedAppend(init, b);
      b.end := b.end + n;
      readable := readable + n;
      linearized, linearizedOffset := [], 0;
      pool.MoveShapes(b);
      pool.ExtendShares(b);
      LastIsLast();
      JoinedFrame(init);
      JoinedAppend(init, b);
      ReadableExtended(b);
      pool.OthersKept(this);
    }

    twostate lemma ReadableExtended(b: BufferBlock)
      requires old(b.Shaped()) && b.Shaped() && b.begin == old(b.begin) && old(b.end) <= b.end && b.data[..] == old(b.data[..])
      ensures b.Readable() == old(b.Readable()) + b.data[old(b.end)..b.end]
    {
    }

    /** One turn of `append`: as much as fits in the last block. */
    method AppendSome(rest: Bytes) returns (n: nat)
      requires Valid() && rest != []
      modifies this, pool`free, pool`blocks, pool`owner, pool`loose, pool.blocks, set b | b in pool.blocks :: b.data
      ensures Valid() && 0 < n <= |rest| && Contents() == old(Contents()) + rest[..n] && (old(Compact()) ==> Compact())
      ensures pool.NewMemory() && pool.Undisturbed(this) && pool.loose == old(pool.loose)
    {
      hide BlockPool.Owing, Joined, BufferBlock.Readable, Accurate, BlockPool.Seen, Kept, Compact;
      pool.FreeFacts();
      var writable := ReserveWritable();
      n := Min(writable, |rest|);
      Listed(|blocks| - 1);
      ghost var reserved := pool.Seen(this);
      Fill(rest[..n]);
      ghost var filled := pool.Seen(this);
      CommitWrite(n);
      KeptTwice(reserved, filled, pool.Seen(this));
      KeptTwice(old(pool.Seen(this)), reserved, pool.Seen(this));
    }

    /** `append` copies block by block; the buffer is a byte queue that gains exactly `data`. */
    method Append(data: Bytes)
      requires Valid()
      modifies this, pool`free, pool`blocks, pool`owner, pool`loose, pool.blocks, set b | b in pool.blocks :: b.data
      ensures Valid() && Contents() == old(Contents()) + data && (old(Compact()) ==> Compact())
      ensures pool.NewMemory() && pool.Undisturbed(this) && pool.loose == old(pool.loose)
    {
      hide BlockPool.Owing, Joined, BufferBlock.Readable, Accurate, BlockPool.Seen, Kept, Compact;
      var rest := data;
      ghost var done: nat := 0;
      Same(pool.Seen(this));
      while rest != []
        invariant Valid() && done <= |data| && rest == data[done..]
        invariant Contents() == old(Contents()) + data[..done]
        invariant pool.NewMemory() && pool.Undisturbed(this) && pool.loose == old(pool.loose)
        invariant old(Compact()) ==> Compact()
      {
        ghost var before := pool.Seen(this);
        var n := AppendSome(rest);
        KeptTwice(old(pool.Seen(this)), before, pool.Seen(this));
        assert rest[..n] == data[done..done + n];
        assert data[..done] + data[done..done + n] == data[..done + n];
        rest, done := rest[n..], done + n;
      }
      assert data[..done] == data;
    }

    // ----- consuming -----

    twostate lemma PopExact(b: BufferBlock)
      requires old(pool.Exact(null)) && b in pool.blocks && old(b.listedBy) != null && b.listedBy == null
      requires pool.free == old(pool.free) && pool.loose == old(pool.loose) && pool.blocks == old(pool.blocks)
      requires b.heldBy == old(b.heldBy) && b.refcount == old(b.refcount)
      requires forall c :: c in pool.blocks && c != b ==> unchanged(c)
      ensures pool.Exact(b)
    {
      assert pool.Holders(b) + 1 == old(pool.Holders(b));
      forall c | c in pool.blocks && c != b ensures pool.Holders(c) == old(pool.Holders(c)) {}
    }

    twostate lemma PopLists()
      requires old(pool.Lists()) && this in pool.buffers && old(blocks) != [] && blocks == old(blocks)[1..]
      requires pool.buffers == old(pool.buffers) && pool.blocks == old(pool.blocks)
      requires old(blocks)[0].listedBy == null
      requires forall c :: c in pool.blocks && c != old(blocks)[0] ==> c.listedBy == old(c.listedBy)
      requires forall x :: x in pool.buffers && x != this ==> unchanged(x)
      ensures pool.Lists()
    {
      assert forall i :: 0 <= i < |blocks| ==> blocks[i] == old(blocks)[i + 1];
      assert forall c :: c in old(blocks) && c != old(blocks)[0] ==> c in blocks;
    }

    /** The front block leaves the list and is released. */
    method PopFront()
      requires pool.Valid() && this in pool.buffers && blocks != []
      modifies `blocks, pool`free, blocks[..1]
      ensures pool.Valid() && this in pool.buffers
      ensures blocks == old(blocks)[1..] && Contents() == old(Joined(blocks[1..]))
      ensures pool.Undisturbed(this)
    {
      hide BlockPool.Shapes, BlockPool.FreeList, BlockPool.Exact, BlockPool.Lists, BlockPool.Shares;
      hide Joined, BufferBlock.Readable, BlockPool.Seen, Kept;
      FrontFacts();
      var b := blocks[0];
      blocks := blocks[1..];
      b.listedBy := null;
      PopExact(b);
      PopLists();
      pool.Release(b);
      JoinedFrame(blocks);
      pool.OthersKept(this);
    }

    lemma FrontFacts()
      requires pool.Valid() && this in pool.buffers && blocks != []
      ensures blocks[0] in pool.blocks && blocks[0].listedBy == this && blocks[0] !in pool.free
      ensures blocks[0].Shaped() && blocks[0].data.Length == pool.blockSize
      ensures forall i :: 1 <= i < |blocks| ==> blocks[i] != blocks[0]
    {
    }

    twostate lemma ReadableDropped(b: BufferBlock)
      requires old(b.Shaped()) && b.Shaped() && old(b.begin) <= b.begin && b.end == old(b.end) && b.data[..] == old(b.data[..])
      ensures b.begin - old(b.begin) <= |old(b.Readable())| && b.Readable() == old(b.Readable())[b.begin - old(b.begin)..]
    {
    }

    lemma JoinedFirst(q: seq<BufferBlock>)
      requires q != []
      ensures Joined(q) == q[0].Readable() + Joined(q[1..])
    {
    }

    lemma ReadableSize(b: BufferBlock)
      requires b.Shaped()
      ensures |b.Readable()| == b.end - b.begin
    {
    }

    /** Bytes are taken off the front block only. */
    method DropFromFront(n: nat)
      requires pool.Valid() && this in pool.buffers && blocks != [] && n <= |blocks[0].Readable()|
      modifies blocks[..1]
      ensures pool.Valid() && this in pool.buffers && n <= |old(Contents())|
      ensures Contents() == old(Contents())[n..] && |blocks[0].Readable()| == |old(blocks[0].Readable())| - n
      ensures pool.Undisturbed(this)
    {
      hide BlockPool.Shapes, BlockPool.FreeList, BlockPool.Exact, BlockPool.Lists, BlockPool.Shares;
      hide Joined, BufferBlock.Readable, BlockPool.Seen, Kept;
      FrontFacts();
      var b := blocks[0];
      ReadableSize(b);
      JoinedFirst(blocks);
      b.begin := b.begin + n;
      pool.MoveShapes(b);
      ReadableDropped(b);
      JoinedFrame(blocks[1..]);
      JoinedFirst(blocks);
      pool.OthersKept(this);
    }

    /** One turn of `consume`. */
    method ConsumeSome(n: nat) returns (m: nat)
      requires pool.Valid() && this in pool.buffers && blocks != [] && 0 < n <= |Contents()|
      modifies `blocks, pool`free, blocks[..1]
      ensures pool.Valid() && this in pool.buffers && m <= n
      ensures Contents() == old(Contents())[n - m..]
      ensures m < n || |blocks| < |old(blocks)|
      ensures old(blocks) == blocks || blocks == old(blocks)[1..]
      ensures old(Compact()) ==> Compact()
      ensures pool.Undisturbed(this)
    {
      hide BlockPool.Owing, Joined, BufferBlock.Readable, BlockPool.Seen, Kept;
      FrontFacts();
      var block := blocks[0];
      ReadableSize(block);
      var take := Min(n, block.end - block.begin);
      DropFromFront(take);
      m := n - take;
      FrontFacts();
      ReadableSize(block);
      if block.end == block.begin {
        JoinedFirst(blocks);
        ghost var dropped := pool.Seen(this);
        PopFront();
        KeptTwice(old(pool.Seen(this)), dropped, pool.Seen(this));
      }
    }

    lemma NothingListed()
      ensures Joined([]) == [] && (blocks == [] ==> Contents() == [])
    {
    }

    /** `gone` blocks and `taken` bytes have left the list and the queue of the start. */
    ghost predicate Consumed(list: seq<BufferBlock>, was: Bytes, gone: nat, taken: nat)
      reads `blocks, blocks`begin, blocks`end, Arrays(blocks)
    {
      gone <= |list| && blocks == list[gone..] && taken <= |was| && Contents() == was[taken..]
    }

    lemma NothingConsumed()
      ensures Consumed(blocks, Contents(), 0, 0)
    {
      assert blocks[0..] == blocks && Contents()[0..] == Contents();
    }

    /** One turn takes bytes, and perhaps a block, off what was left. */
    twostate lemma ConsumedMore(new list: seq<BufferBlock>, new was: Bytes, new gone: nat, new taken: nat, new m: nat)
      requires old(allocated(list)) && old(Consumed(list, was, gone, taken)) && m <= |old(Contents())| && Contents() == old(Contents())[m..]
      requires blocks == old(blocks) || (old(blocks) != [] && blocks == old(blocks)[1..])
      ensures taken + m <= |was| && Consumed(list, was, if blocks == old(blocks) then gone else gone + 1, taken + m)
    {
      DropTwice(was, taken, taken + m);
      if blocks != old(blocks) { DropTwice(list, gone, gone + 1); }
    }

    lemma FrontWasThere(list: seq<BufferBlock>, was: Bytes, gone: nat, taken: nat)
      requires Consumed(list, was, gone, taken)
      ensures Among(blocks, list)
      ensures |Contents()| == |was| - taken
    {
    }

    /** The loop of `consume`: blocks leave from the front until `n` bytes are gone. */
    method ConsumeBlocks(n: nat)
      requires pool.Valid() && this in pool.buffers && n <= |Contents()|
      modifies `blocks, pool`free, blocks
      ensures pool.Valid() && this in pool.buffers
      ensures Contents() == old(Contents())[n..]
      ensures Among(blocks, old(blocks)) && (old(Compact()) ==> Compact())
      ensures pool.Undisturbed(this)
    {
      hide BlockPool.Owing, Joined, BufferBlock.Readable, BlockPool.Seen, Kept, Consumed, Contents, Compact;
      ghost var list, was := blocks, Contents();
      var k: nat := n;
      ghost var gone: nat := 0;
      NothingConsumed();
      Same(pool.Seen(this));
      while k > 0 && blocks != []
        invariant pool.Valid() && this in pool.buffers && k <= n
        invariant Consumed(list, was, gone, n - k)
        invariant Kept(old(pool.Seen(this)), pool.Seen(this)) && (old(Compact()) ==> Compact())
        decreases k + |blocks|
      {
        ghost var taken: nat := n - k;
        ghost var before := pool.Seen(this);
        FrontWasThere(list, was, gone, taken);
        label Turn:
        k := ConsumeSome(k);
        ConsumedMore@Turn(list, was, gone, taken, n - k - taken);
        gone := if blocks == old@Turn(blocks) then gone else gone + 1;
        KeptTwice(old(pool.Seen(this)), before, pool.Seen(this));
      }
      FrontWasThere(list, was, gone, n - k);
      NothingListed();
      AllTaken(list, was, gone, n - k, n);
    }

    lemma AllTaken(list: seq<BufferBlock>, was: Bytes, gone: nat, taken: nat, n: nat)
      requires Consumed(list, was, gone, taken) && taken <= n <= |was| && (taken == n || blocks == [])
      ensures Contents() == was[n..]
    {
      NothingListed();
    }

    /** `consume`: the queue loses its first `n` bytes, or all of them. */
    method Consume(n: nat)
      requires Valid()
      modifies this, pool`free, blocks
      ensures Valid() && Contents() == old(Contents())[Min(n, |old(Contents())|)..]
      ensures Among(blocks, old(blocks)) && pool.Undisturbed(this) && (old(Compact()) ==> Compact())
    {
      hide BlockPool.Owing, Joined, BufferBlock.Readable, BlockPool.Seen, Kept, Compact;
      var k: nat := Min(n, readable);
      readable := readable - k;
      if linearized != [] { linearizedOffset := linearizedOffset + k; }
      JoinedFrame(blocks);
      pool.OthersKept(this);
      ghost var before := pool.Seen(this);
      ConsumeBlocks(k);
      KeptTwice(old(pool.Seen(this)), before, pool.Seen(this));
      CacheFollows(old(Contents()), k);
      BlocksKnown();
    }

    lemma BlocksKnown()
      requires pool.Valid() && this in pool.buffers
      ensures Joinable()
    {
    }

    /** The linear copy, past its moved offset, is still the queue. */
    lemma CacheFollows(was: Bytes, n: nat)
      requires n <= |was| && Contents() == was[n..] && readable == |was| - n
      requires linearized != [] ==> n <= linearizedOffset <= |linearized| && linearized[linearizedOffset - n..] == was
      requires linearized == [] ==> linearizedOffset == 0
      ensures Accurate()
    {
      if linearized != [] {
        assert linearized[linearizedOffset..] == linearized[linearizedOffset - n..][n..];
      }
    }

    /** A buffer lists no more blocks than it has bytes, and one more to read into. */
    lemma FewBlocks()
      requires Valid() && Compact()
      ensures |blocks| <= readable + 1
    {
      hide BlockPool.Owing, Joined;
      forall i | 0 <= i < |blocks| - 1 ensures blocks[i].Readable() != [] { Listed(i); }
      BlocksCount(blocks);
    }

    // ----- reading -----

    /** `readableView`: the one block that has everything, or a linear copy kept until the next write. */
    method ReadableView() returns (view: Bytes)
      requires Valid()
      modifies `linearized, `linearizedOffset
      ensures Valid() && view == Contents() == old(Contents())
      ensures pool.Undisturbed(this)
    {
      hide BlockPool.Owing, Joined, BufferBlock.Readable, BlockPool.Seen, Kept;
      Same(pool.Seen(this));
      if readable == 0 { return []; }
      NothingListed();
      FrontFacts();
      ReadableSize(blocks[0]);
      JoinedFirst(blocks);
      if blocks[0].end - blocks[0].begin == readable {
        return ViewOf(blocks[0]);
      }
      if linearized == [] {
        Linearize();
      }
      view := linearized[linearizedOffset..];
    }

    function ViewOf(b: BufferBlock): Bytes
      requires b.Shaped()
      reads b`begin, b`end, b.data
      ensures ViewOf(b) == b.Readable()
    {
      b.data[b.begin..b.end]
    }

    /** The blocks are copied end to end. */
    method Linearize()
      requires Valid() && linearized == []
      modifies `linearized, `linearizedOffset
      ensures Valid() && Contents() == old(Contents()) && linearized[linearizedOffset..] == Contents()
      ensures pool.Undisturbed(this)
    {
      hide BlockPool.Owing, Joined, BufferBlock.Readable;
      var i, copy := 0, [];
      NothingListed();
      assert blocks[..0] == [];
      while i < |blocks|
        invariant i <= |blocks| && copy == Joined(blocks[..i])
      {
        BlockShaped(i);
        copy := copy + ViewOf(blocks[i]);
        JoinedAppend(blocks[..i], blocks[i]);
        i := i + 1;
        assert blocks[..i] == blocks[..i - 1] + [blocks[i - 1]];
      }
      assert blocks[..i] == blocks;
      JoinedFrame(blocks);
      linearized, linearizedOffset := copy, 0;
      assert linearized[0..] == linearized;
      JoinedFrame(blocks);
      pool.OthersKept(this);
    }

    lemma BlockShaped(i: nat)
      requires pool.Valid() && this in pool.buffers && i < |blocks|
      ensures blocks[i].Shaped() && blocks[i] in pool.blocks && blocks[i] !in pool.free
    {
    }

    // ----- slicing -----

    /** One block's share of a prefix: a new holder of the bytes at its front. */
    method SliceBlock(chain: BufferChain, i: nat, remaining: nat) returns (take: nat, s: BufferSlice)
      requires Valid() && i < |blocks| && chain.Valid() && chain.Alive(pool)
      modifies chain, pool`slices, blocks`refcount, blocks`heldBy
      ensures Valid() && chain.Valid() && chain.Alive(pool) && Contents() == old(Contents())
      ensures take == Min(remaining, |old(blocks[i].Readable())|)
      ensures chain.slices == old(chain.slices) + [s] && SliceSet(chain.slices) == SliceSet(old(chain.slices)) + {s}
      ensures fresh(s) && pool.slices == old(pool.slices) + {s}
      ensures ChainText(chain.slices) == old(ChainText(chain.slices)) + old(blocks[i].Readable())[..take]
      ensures forall j :: 0 <= j < |blocks| ==> blocks[j].Readable() == old(blocks[j].Readable())
      ensures pool.Undisturbed(this)
    {
      hide BlockPool.Owing, Joined, ChainText, Lengths, Accurate, BlockPool.Seen, Kept;
      hide BufferBlock.Readable, BufferSlice.Text, BufferChain.Alive, SliceSet;
      BlockShaped(i);
      var b := blocks[i];
      ReadableSize(b);
      take := Min(remaining, b.end - b.begin);
      s := pool.Retain(b, b.begin, take);
      SliceStarts(b, s);
      chain.Append(s);
      AccurateFrame();
      ChainFrame(old(chain.slices));
      ChainMore(old(chain.slices), s);
      AliveMore(chain, s);
      pool.OthersKept(this);
    }

    /** A slice from where the readable bytes start is a prefix of them. */
    lemma SliceStarts(b: BufferBlock, s: BufferSlice)
      requires b.Shaped() && s.block == b && s.offset == b.begin && s.length <= b.end - b.begin
      ensures |b.Readable()| == b.end - b.begin && s.Text() == b.Readable()[..s.length]
    {
    }

    twostate lemma AliveMore(new chain: BufferChain, new s: BufferSlice)
      requires old(allocated(chain)) && old(chain.Alive(pool)) && fresh(s)
      requires chain.slices == old(chain.slices) + [s] && pool.slices == old(pool.slices) + {s}
      ensures chain.Alive(pool) && SliceSet(chain.slices) == SliceSet(old(chain.slices)) + {s}
    {
    }

    twostate lemma ChainKept(q: seq<BufferSlice>)
      requires pool.Undisturbed(this) && forall i :: 0 <= i < |q| ==> q[i] in old(pool.slices)
      ensures ChainText(q) == old(ChainText(q)) && forall i :: 0 <= i < |q| ==> q[i] in pool.slices
    {
      hide ChainText;
      assert forall i :: 0 <= i < |q| ==> q[i] in old(pool.Seen(this)).slices;
      ChainFrame(q);
    }

    /** What is left to slice starts where the next block starts. */
    lemma NextBlock(all: Bytes, done: nat, take: nat, i: nat)
      requires i < |blocks| && done <= |all| && all[done..] == Joined(blocks[i..]) && take <= |blocks[i].Readable()|
      ensures done + take <= |all| && all[..done] + blocks[i].Readable()[..take] == all[..done + take]
      ensures take == |blocks[i].Readable()| ==> all[done + take..] == Joined(blocks[i + 1..])
    {
      hide BufferBlock.Readable;
      assert blocks[i..][0] == blocks[i] && blocks[i..][1..] == blocks[i + 1..];
    }

    /** The loop of `slicePrefix`: the first `n` bytes, or all of them, gain a chain of holders. */
    method ShareBlocks(n: nat, chain: BufferChain)
      requires Valid() && chain.Valid() && chain.slices == []
      modifies chain, pool`slices, blocks`refcount, blocks`heldBy
      ensures Valid() && chain.Valid() && chain.Alive(pool)
      ensures Contents() == old(Contents()) && ChainText(chain.slices) == Contents()[..Min(n, |Contents()|)]
      ensures pool.slices == old(pool.slices) + SliceSet(chain.slices) && fresh(SliceSet(chain.slices))
      ensures pool.Undisturbed(this)
    {
      hide BlockPool.Owing, Joined, ChainText, BufferBlock.Readable, Accurate, BlockPool.Seen, Kept, SliceSet;
      hide BufferChain.Valid, BufferChain.Alive, Contents, Progress;
      ghost var all := Contents();
      var remaining: nat, i := n, 0;
      Unshared();
      chain.Nothing(pool);
      Same(pool.Seen(this));
      while i < |blocks| && remaining != 0
        invariant i <= |blocks| && remaining <= n
        invariant Valid() && chain.Valid() && chain.Alive(pool) && Contents() == all && unchanged(this)
        invariant Progress(all, ChainText(chain.slices), n - remaining, i, remaining == 0 < n)
        invariant pool.slices == old(pool.slices) + SliceSet(chain.slices) && fresh(SliceSet(chain.slices))
        invariant Kept(old(pool.Seen(this)), pool.Seen(this))
      {
        ghost var before, text, done: nat := pool.Seen(this), ChainText(chain.slices), n - remaining;
        label Turn:
        var take, _ := SliceBlock(chain, i, remaining);
        KeptTwice(old(pool.Seen(this)), before, pool.Seen(this));
        NextShared@Turn(all, text, ChainText(chain.slices), done, take, i, remaining);
        remaining := remaining - take;
        i := i + 1;
      }
      AllShared(all, ChainText(chain.slices), n, remaining, i);
    }

    /** `text` is the first `done` bytes of the queue, and unless that was all, block `i` is next. */
    ghost predicate Progress(all: Bytes, text: Bytes, done: nat, i: nat, complete: bool)
      reads `blocks, blocks`begin, blocks`end, Arrays(blocks)
    {
      i <= |blocks| && done <= |all| && text == all[..done] && (complete || all[done..] == Joined(blocks[i..]))
    }

    lemma Unshared()
      ensures Progress(Contents(), ChainText([]), 0, 0, false)
    {
      assert blocks[0..] == blocks;
    }

    twostate lemma NextShared(new all: Bytes, new text: Bytes, new more: Bytes, new done: nat, new take: nat, new i: nat, new remaining: nat)
      requires old(Progress(all, text, done, i, false)) && i < |blocks| && blocks == old(blocks)
      requires forall j :: 0 <= j < |blocks| ==> blocks[j].Readable() == old(blocks[j].Readable())
      requires take == Min(remaining, |old(blocks[i].Readable())|) && more == text + old(blocks[i].Readable())[..take]
      ensures Progress(all, more, done + take, i + 1, remaining == take)
    {
      hide BufferBlock.Readable, Joined;
      JoinedFrame(blocks[i..]);
      NextBlock(all, done, take, i);
    }

    lemma AllShared(all: Bytes, text: Bytes, n: nat, remaining: nat, i: nat)
      requires remaining <= n && Progress(all, text, n - remaining, i, remaining == 0 < n)
      requires i == |blocks| || remaining == 0
      ensures text == all[..Min(n, |all|)]
    {
      if remaining != 0 { assert blocks[i..] == []; }
    }

    lemma NothingShared(all: Bytes)
      ensures ChainText([]) == all[..0] && all[0..] == all && Joined(blocks[0..]) == Contents()
    {
      assert blocks[0..] == blocks;
    }

    /** `slicePrefix`: the first `n` bytes leave as a chain of slices; later bytes stay queued. */
    method SlicePrefix(n: nat) returns (chain: BufferChain)
      requires Valid()
      modifies this, pool`slices, pool`free, blocks
      ensures Valid() && fresh(chain) && chain.Valid() && chain.Alive(pool)
      ensures ChainText(chain.slices) == old(Contents())[..Min(n, |old(Contents())|)]
      ensures Contents() == old(Contents())[Min(n, |old(Contents())|)..]
      ensures pool.slices == old(pool.slices) + SliceSet(chain.slices) && fresh(SliceSet(chain.slices))
      ensures Among(blocks, old(blocks)) && pool.Undisturbed(this) && (old(Compact()) ==> Compact())
    {
      hide BlockPool.Owing, Joined, ChainText, BufferBlock.Readable, Lengths, Accurate, BlockPool.Seen, Kept, Compact;
      chain := new BufferChain();
      AccurateFrame();
      NothingShared(Contents());
      pool.OthersKept(this);
      if n == 0 { return; }
      ghost var before := pool.Seen(this);
      ShareBlocks(n, chain);
      KeptTwice(old(pool.Seen(this)), before, pool.Seen(this));
      before := pool.Seen(this);
      label Shared:
      Consume(n);
      ChainKept@Shared(chain.slices);
      KeptTwice(old(pool.Seen(this)), before, pool.Seen(this));
    }

    /** Bytes go in at one end of an empty buffer and come out as slices at the other. */
    method Pass(bytes: Bytes) returns (chain: BufferChain)
      requires Valid() && Contents() == []
      modifies this, pool`free, pool`blocks, pool`owner, pool`loose, pool`slices, pool.blocks, set b | b in pool.blocks :: b.data
      ensures Valid() && fresh(chain) && chain.Valid() && chain.Alive(pool) && ChainText(chain.slices) == bytes
      ensures pool.slices == old(pool.slices) + SliceSet(chain.slices) && fresh(SliceSet(chain.slices))
      ensures pool.NewMemory() && pool.Undisturbed(this) && pool.loose == old(pool.loose)
      ensures forall i :: 0 <= i < |blocks| ==> blocks[i] in pool.blocks
    {
      hide BlockPool.Owing, Contents, ChainText, Lengths, Accurate, BlockPool.Seen, Kept, SliceSet;
      hide BufferChain.Valid, BufferChain.Alive;
      Append(bytes);
      ghost var filled := pool.Seen(this);
      assert Contents() == bytes;
      chain := SlicePrefix(|bytes|);
      KeptTwice(old(pool.Seen(this)), filled, pool.Seen(this));
      BlocksKnown();
    }

    // ----- the end of a buffer -----

    /** `clear`: every block is let go, front to back. */
    method Clear()
      requires Valid()
      modifies this, pool`free, blocks
      ensures Valid() && Contents() == [] && blocks == [] && pool.Undisturbed(this)
    {
      hide BlockPool.Owing, Joined, BufferBlock.Readable, BlockPool.Seen, Kept;
      ghost var gone: nat := 0;
      Same(pool.Seen(this));
      while blocks != []
        invariant pool.Valid() && this in pool.buffers
        invariant gone <= |old(blocks)| && blocks == old(blocks)[gone..]
        invariant Kept(old(pool.Seen(this)), pool.Seen(this))
        decreases |blocks|
      {
        ghost var before := pool.Seen(this);
        PopFront();
        DropTwice(old(blocks), gone, gone + 1);
        gone := gone + 1;
        KeptTwice(old(pool.Seen(this)), before, pool.Seen(this));
      }
      label Emptied:
      ghost var before := pool.Seen(this);
      readable, linearized, linearizedOffset := 0, [], 0;
      NothingListed();
      pool.OthersKept@Emptied(this);
      KeptTwice(old(pool.Seen(this)), before, pool.Seen(this));
    }

    /** `~IoBuffer`: the buffer gives its blocks back and is gone; slices of them live on. */
    method Destroy()
      requires Valid()
      modifies this, pool`free, pool`buffers, blocks
      ensures pool.Valid() && pool.buffers == old(pool.buffers) - {this} && pool.Undisturbed(this)
    {
      hide BlockPool.Owing, Joined, BufferBlock.Readable, BlockPool.Seen, Kept;
      Clear();
      label Cleared:
      ghost var before := pool.Seen(this);
      pool.buffers := pool.buffers - {this};
      LeaveLists@Cleared();
      pool.OthersKept@Cleared(this);
      KeptTwice(old(pool.Seen(this)), before, pool.Seen(this));
    }

    /** A buffer without blocks may leave the pool. */
    twostate lemma LeaveLists()
      requires old(pool.Valid()) && this in old(pool.buffers) && blocks == []
      requires pool.buffers == old(pool.buffers) - {this} && unchanged(this)
      requires unchanged(pool`free) && unchanged(pool`blocks) && unchanged(pool`owner) && unchanged(pool`loose) && unchanged(pool`slices)
      requires unchanged(pool.blocks) && forall x :: x in pool.buffers ==> unchanged(x)
      ensures pool.Valid()
    {
    }
  }

  ghost function SliceSet(q: seq<BufferSlice>): set<BufferSlice> { set s | s in q }

  /** `MakeBufferChain`: a literal becomes a chain that reads as the literal; nothing else changes hands. */
  method MakeBufferChain(pool: BlockPool, bytes: Bytes) returns (chain: BufferChain)
    requires pool.Valid()
    modifies pool, pool.blocks, set b | b in pool.blocks :: b.data
    ensures pool.Valid() && pool.buffers == old(pool.buffers)
    ensures fresh(chain) && chain.Valid() && chain.Alive(pool) && ChainText(chain.slices) == bytes
    ensures pool.slices == old(pool.slices) + SliceSet(chain.slices) && fresh(SliceSet(chain.slices))
    ensures pool.NewMemory() && pool.Undisturbed(null) && pool.loose == old(pool.loose)
  {
    hide BlockPool.Owing, IoBuffer.Contents, ChainText, Lengths, IoBuffer.Accurate, BlockPool.Seen, Kept, SliceSet;
    hide BufferChain.Valid, BufferChain.Alive;
    var input := new IoBuffer(pool);
    ghost var start := pool.Seen(input);
    pool.Newcomer(input);
    chain := input.Pass(bytes);
    ghost var sliced := pool.Seen(input);
    KeptTwice(old(pool.Seen(null)), start, sliced);
    chain.InPool(pool);
    label Sliced:
    input.Destroy();
    input.ChainKept@Sliced(chain.slices);
    chain.StillAlive(pool);
    KeptTwice(old(pool.Seen(null)), sliced, pool.Seen(input));
    pool.Absent(input);
  }

  lemma DropTwice<T>(s: seq<T>, i: nat, j: nat)
    requires i <= j <= |s|
    ensures s[i..][j - i..] == s[j..]
  {
  }

  method Copy(a: array<Byte>, start: nat, bytes: Bytes)
    requires start + |bytes| <= a.Length
    modifies a
    ensures a[start..start + |bytes|] == bytes && forall i :: 0 <= i < start ==> a[i] == old(a[i])
  {
    forall i | 0 <= i < |bytes| {
      a[start + i] := bytes[i];
    }
  }
}
