/**
 Every sequence of operations on everything a pool serves: buffers that come and go, chains cut from
 them, copied, joined and dropped, blocks recycled from one to the other.  Each buffer is a plain byte
 queue throughout, and each chain reads as it did when it was cut for as long as it lives.
 */
module BufferRuns {
  import opened Resp
  import opened Framing
  import opened Buffers

  datatype Op =
    | NewBuffer(x: nat) | Destroy(x: nat)
    | Append(x: nat, data: Bytes)
    | Receive(x: nat, data: Bytes)   // `reserveWritable`, a socket read into the room, `commitWrite`
    | Reserve(x: nat) | Consume(x: nat, n: nat) | Look(x: nat) | Clear(x: nat)
    | Slice(x: nat, n: nat, k: nat)  // `slicePrefix` into chain `k`
    | Literal(k: nat, data: Bytes)   // `MakeBufferChain`
    | Duplicate(k: nat, l: nat)      // chain `l` becomes a copy of chain `k`
    | Join(k: nat, l: nat)           // `appendChain`
    | Drop(k: nat)

  /** What the users of a pool see: queues of bytes, and cut-off pieces. */
  datatype Shadow = Shadow(queues: map<nat, Bytes>, cuts: map<nat, Bytes>)

  /** What an operation does, in those terms; a name that is not there, or not free, makes it do nothing. */
  function After(s: Shadow, op: Op, taken: nat): Shadow {
    match op
    case NewBuffer(x) => if x in s.queues then s else s.(queues := s.queues[x := []])
    case Destroy(x) => s.(queues := s.queues - {x})
    case Append(x, data) => if x in s.queues then s.(queues := s.queues[x := s.queues[x] + data]) else s
    case Receive(x, data) =>
      if x in s.queues && taken <= |data| then s.(queues := s.queues[x := s.queues[x] + data[..taken]]) else s
    case Reserve(_) => s
    case Look(_) => s
    case Consume(x, n) => if x in s.queues then s.(queues := s.queues[x := s.queues[x][Min(n, |s.queues[x]|)..]]) else s
    case Clear(x) => if x in s.queues then s.(queues := s.queues[x := []]) else s
    case Slice(x, n, k) =>
      if x in s.queues && k !in s.cuts then
        var q := s.queues[x];
        Shadow(s.queues[x := q[Min(n, |q|)..]], s.cuts[k := q[..Min(n, |q|)]])
      else s
    case Literal(k, data) => if k in s.cuts then s else s.(cuts := s.cuts[k := data])
    case Duplicate(k, l) => if k in s.cuts && l !in s.cuts then s.(cuts := s.cuts[l := s.cuts[k]]) else s
    case Join(k, l) => if k in s.cuts && l in s.cuts && k != l then s.(cuts := s.cuts[k := s.cuts[k] + s.cuts[l]][l := []]) else s
    case Drop(k) => s.(cuts := s.cuts - {k})
  }

  /** A read takes at least one byte of what has arrived. */
  ghost predicate Follows(s: Shadow, op: Op, s': Shadow) {
    exists taken: nat :: s' == After(s, op, taken) && (op.Receive? && op.data != [] ==> 0 < taken <= |op.data|)
  }

  /** The chains an operation changes or drops. */
  function Touched(op: Op): set<nat> {
    match op
    case Join(k, l) => {k, l}
    case Drop(k) => {k}
    case _ => {}
  }

  function AllTouched(ops: seq<Op>): set<nat> { if ops == [] then {} else Touched(ops[0]) + AllTouched(ops[1..]) }

  lemma TraceTail(ss: seq<Shadow>, ops: seq<Op>)
    requires Trace(ss, ops) && ops != []
    ensures Trace(ss[1..], ops[1..])
  {
    hide Follows;
    forall i | 0 <= i < |ops[1..]| ensures Follows(ss[1..][i], ops[1..][i], ss[1..][i + 1]) {
      assert Follows(ss[i + 1], ops[i + 1], ss[i + 2]);
    }
  }

  /** A chain that is left alone reads the same in the end. */
  lemma {:induction false} CutStays(ss: seq<Shadow>, ops: seq<Op>, k: nat)
    requires Trace(ss, ops) && k in ss[0].cuts && k !in AllTouched(ops)
    ensures k in ss[|ops|].cuts && ss[|ops|].cuts[k] == ss[0].cuts[k]
    decreases |ops|
  {
    if ops != [] {
      assert Follows(ss[0], ops[0], ss[1]);
      TraceTail(ss, ops);
      CutStays(ss[1..], ops[1..], k);
    }
  }

  ghost predicate Trace(ss: seq<Shadow>, ops: seq<Op>) {
    |ss| == |ops| + 1 && forall i :: 0 <= i < |ops| ==> Follows(ss[i], ops[i], ss[i + 1])
  }

  lemma Longer(s: Shadow, ops: seq<Op>, ss: seq<Shadow>)
    requires ops != [] && Trace(ss, ops[1..]) && Follows(s, ops[0], ss[0])
    ensures Trace([s] + ss, ops)
  {
    hide Follows;
    assert forall i :: 0 < i < |ops| ==> ops[i] == ops[1..][i - 1];
  }

  class BufferWorld {
    const pool: BlockPool
    var buffers: map<nat, IoBuffer>
    var chains: map<nat, BufferChain>

    constructor (blockSize: nat)
      requires 0 < blockSize
      ensures Valid() && View() == Shadow(map[], map[]) && fresh(pool)
    {
      var p := new BlockPool(blockSize);
      pool, buffers, chains := p, map[], map[];
    }

    /** The pool's buffers are the ones named here, each in order. */
    ghost predicate Buffered()
      reads *
    {
      && pool.Valid() && pool.loose == {} && pool.buffers == buffers.Values
      && (forall x, y :: x in buffers && y in buffers && x != y ==> buffers[x] != buffers[y])
      && (forall x :: x in buffers ==> buffers[x].pool == pool && buffers[x].Valid())
    }

    /** The pool's slices are those of the chains named here, each in one of them. */
    ghost predicate Chained()
      reads *
    {
      Sound() && Apart() && Covering()
    }

    ghost predicate Sound()
      reads *
    {
      && (forall k, l :: k in chains && l in chains && k != l ==> chains[k] != chains[l])
      && (forall k :: k in chains ==> chains[k].Valid() && chains[k].Alive(pool))
    }

    ghost predicate Apart()
      reads *
    {
      forall k, l, s :: k in chains && l in chains && s in chains[k].slices && s in chains[l].slices ==> k == l
    }

    ghost predicate Covering()
      reads *
    {
      forall s :: s in pool.slices ==> exists k :: k in chains && s in chains[k].slices
    }

    ghost predicate Valid()
      reads *
    {
      Buffered() && Chained()
    }

    ghost function Queues(): map<nat, Bytes>
      reads *
    {
      map x | x in buffers :: buffers[x].Contents()
    }

    ghost function Cuts(): map<nat, Bytes>
      reads *
    {
      map k | k in chains :: ChainText(chains[k].slices)
    }

    ghost function View(): Shadow
      reads *
    {
      Shadow(Queues(), Cuts())
    }

    lemma BufferAt(x: nat)
      requires Buffered() && x in buffers
      ensures buffers[x].pool == pool && buffers[x].Valid() && buffers[x] in pool.buffers && pool.loose == {}
      ensures x in Queues() && Queues()[x] == buffers[x].Contents()
    {
      hide BlockPool.Owing, IoBuffer.Contents, IoBuffer.Accurate;
    }

    // ----- one buffer changes -----

    twostate lemma OthersStand(x: IoBuffer?)
      requires old(Buffered()) && pool.Valid()
      requires forall y :: y in old(pool.buffers) && y != x ==> y in pool.buffers && y.Steady()
      ensures forall y :: y in old(pool.buffers) && y != x ==> y.Valid() && y.Contents() == old(y.Contents())
    {
      hide BlockPool.Owing, IoBuffer.Contents, IoBuffer.Accurate;
      if y :| y in old(pool.buffers) && y != x && !y.Valid() {
        y.StaysValid();
        assert false;
      }
    }

    twostate lemma QueueChanged(new x: nat)
      requires old(Buffered()) && unchanged(`buffers) && x in buffers && pool.loose == {} && pool.buffers == old(pool.buffers)
      requires buffers[x].Valid() && forall y :: y in old(pool.buffers) && y != buffers[x] ==> y.Steady()
      ensures Buffered() && Queues() == old(Queues())[x := buffers[x].Contents()]
    {
      hide BlockPool.Owing, IoBuffer.Contents, IoBuffer.Accurate;
      OthersStand(buffers[x]);
    }

    twostate lemma QueuesStay()
      requires old(Buffered()) && unchanged(`buffers) && pool.Valid() && pool.loose == {} && pool.buffers == old(pool.buffers)
      requires forall y :: y in old(pool.buffers) ==> y.Steady()
      ensures Buffered() && Queues() == old(Queues())
    {
      hide BlockPool.Owing, IoBuffer.Contents, IoBuffer.Accurate;
      OthersStand(null);
    }

    twostate lemma CutsStay(x: IoBuffer?)
      requires old(Chained()) && unchanged(`chains) && unchanged(chains.Values)
      requires pool.slices == old(pool.slices) && pool.Undisturbed(x)
      ensures Chained() && Cuts() == old(Cuts())
    {
      hide ChainText, BufferSlice.Text, BlockPool.Seen, Kept, Lengths, Chained, Cuts;
      pool.SlicesKept(x);
      CutsLast();
    }

    /** Everything the operations may write. */
    ghost function Reach(): set<object>
      reads *
    {
      {this as object, pool} + pool.blocks + (set b | b in pool.blocks :: b.data) + pool.buffers + chains.Values
    }

    /** Chains outside `touched` keep their slices. */
    twostate predicate ChainsStand(new touched: set<nat>)
      reads *
    {
      forall k :: k in old(chains) && k !in touched ==>
        k in chains && chains[k] == old(chains[k]) && chains[k].slices == old(chains[k].slices)
    }

    /** What is in reach now and was not before is new. */
    twostate predicate Grown()
      reads *
    {
      forall o :: o in Reach() && o !in old(Reach()) ==> fresh(o)
    }

    lemma Reaches(x: nat)
      requires Buffered() && x in buffers
      ensures this in Reach() && pool in Reach() && buffers[x] in Reach()
      ensures forall b :: b in pool.blocks ==> b in Reach() && b.data in Reach()
      ensures forall i :: 0 <= i < |buffers[x].blocks| ==> buffers[x].blocks[i] in pool.blocks
    {
      hide BlockPool.Owing, IoBuffer.Contents, IoBuffer.Accurate;
    }

    /** New memory is all there is in reach that was not before. */
    twostate lemma ReachGrows()
      requires pool.NewMemory() && pool.buffers == old(pool.buffers) && chains == old(chains)
      ensures Grown()
    {
    }

    /** Renaming things here changes nothing in the pool. */
    twostate lemma Relabelled()
      requires old(pool.Valid()) && unchanged(pool) && unchanged(pool.blocks) && unchanged(pool.buffers)
      requires forall b :: b in pool.blocks ==> unchanged(b.data)
      ensures pool.Valid() && pool.Seen(null) == old(pool.Seen(null))
      ensures forall y :: y in pool.buffers ==> y.Steady() && (old(y.Valid()) && y.pool == pool ==> y.Valid())
      ensures forall s :: s in pool.slices ==> s.Text() == old(s.Text())
    {
      hide BlockPool.Owing, BlockPool.Seen, IoBuffer.Contents, IoBuffer.Accurate;
      pool.SeenFrame(null);
      SeenSame();
      if y :| y in pool.buffers && old(y.Valid()) && y.pool == pool && !y.Valid() {
        y.Untouched();
        assert false;
      }
      pool.SliceFacts();
    }

    twostate lemma SeenSame()
      requires unchanged(pool) && unchanged(pool.buffers) && pool.Seen(null) == old(pool.Seen(null))
      ensures forall y :: y in pool.buffers ==> y.Steady()
    {
      hide IoBuffer.Contents;
      assert forall y :: y in pool.buffers ==> y in pool.Seen(null).buffers;
    }

    /** What happens outside changes nothing here. */
    twostate lemma NothingHappened()
      requires old(Valid()) && unchanged(this) && unchanged(pool) && unchanged(pool.blocks) && unchanged(pool.buffers)
      requires unchanged(chains.Values) && forall b :: b in pool.blocks ==> unchanged(b.data)
      ensures Valid() && View() == old(View()) && Reach() == old(Reach())
    {
      hide BlockPool.Owing, IoBuffer.Contents, IoBuffer.Accurate, BlockPool.Seen, Kept, Chained, Queues, Cuts;
      Relabelled();
      QueuesStay();
      CutsLast();
    }

    // ----- writing and reading -----

    method DoAppend(x: nat, data: Bytes)
      requires Valid() && x in buffers
      modifies Reach()
      ensures Valid() && View() == After(old(View()), Append(x, data), 0) && Grown() && ChainsStand({})
    {
      hide BlockPool.Owing, IoBuffer.Contents, IoBuffer.Accurate, BlockPool.Seen, Kept, Buffered, Chained, Queues, Cuts, Reach, Among;
      BufferAt(x);
      Reaches(x);
      var b := buffers[x];
      b.Append(data);
      pool.BuffersKept(b);
      QueueChanged(x);
      CutsStay(b);
      ReachGrows();
    }

    method DoReceive(x: nat, data: Bytes) returns (taken: nat)
      requires Valid() && x in buffers && data != []
      modifies Reach()
      ensures 0 < taken <= |data|
      ensures Valid() && View() == After(old(View()), Receive(x, data), taken) && Grown() && ChainsStand({})
    {
      hide BlockPool.Owing, IoBuffer.Contents, IoBuffer.Accurate, BlockPool.Seen, Kept, Buffered, Chained, Queues, Cuts, Reach, Among;
      BufferAt(x);
      Reaches(x);
      var b := buffers[x];
      taken := b.AppendSome(data);
      pool.BuffersKept(b);
      QueueChanged(x);
      CutsStay(b);
      ReachGrows();
    }

    method DoReserve(x: nat)
      requires Valid() && x in buffers
      modifies Reach()
      ensures Valid() && View() == old(View()) && Grown() && ChainsStand({})
    {
      hide BlockPool.Owing, IoBuffer.Contents, IoBuffer.Accurate, BlockPool.Seen, Kept, Buffered, Chained, Queues, Cuts, Reach, Among;
      BufferAt(x);
      Reaches(x);
      pool.FreeFacts();
      var b := buffers[x];
      var _ := b.ReserveWritable();
      pool.BuffersKept(b);
      QueueChanged(x);
      CutsStay(b);
      ReachGrows();
      assert old(Queues())[x := old(Queues())[x]] == old(Queues());
    }

    method DoLook(x: nat) returns (view: Bytes)
      requires Valid() && x in buffers
      modifies Reach()
      ensures Valid() && View() == old(View()) && Grown() && ChainsStand({})
      ensures x in View().queues && view == View().queues[x]
    {
      hide BlockPool.Owing, IoBuffer.Contents, IoBuffer.Accurate, BlockPool.Seen, Kept, Buffered, Chained, Queues, Cuts, Reach, Among;
      BufferAt(x);
      Reaches(x);
      var b := buffers[x];
      view := b.ReadableView();
      pool.BuffersKept(b);
      QueueChanged(x);
      CutsStay(b);
      ReachGrows();
      assert old(Queues())[x := old(Queues())[x]] == old(Queues());
    }

    method DoConsume(x: nat, n: nat)
      requires Valid() && x in buffers
      modifies Reach()
      ensures Valid() && View() == After(old(View()), Consume(x, n), 0) && Grown() && ChainsStand({})
    {
      hide BlockPool.Owing, IoBuffer.Contents, IoBuffer.Accurate, BlockPool.Seen, Kept, Buffered, Chained, Queues, Cuts, Reach, Among;
      BufferAt(x);
      Reaches(x);
      var b := buffers[x];
      ghost var rest := b.Contents()[Min(n, |b.Contents()|)..];
      assert After(View(), Consume(x, n), 0) == View().(queues := Queues()[x := rest]);
      hide After;
      b.Consume(n);
      assert b.Contents() == rest;
      pool.BuffersKept(b);
      QueueChanged(x);
      CutsStay(b);
      ReachGrows();
    }

    method DoClear(x: nat)
      requires Valid() && x in buffers
      modifies Reach()
      ensures Valid() && View() == After(old(View()), Clear(x), 0) && Grown() && ChainsStand({})
    {
      hide BlockPool.Owing, IoBuffer.Contents, IoBuffer.Accurate, BlockPool.Seen, Kept, Buffered, Chained, Queues, Cuts, Reach, Among;
      BufferAt(x);
      Reaches(x);
      var b := buffers[x];
      b.Clear();
      pool.BuffersKept(b);
      QueueChanged(x);
      CutsStay(b);
      ReachGrows();
    }

    // ----- buffers come and go -----

    twostate lemma QueueAdded(new x: nat, new b: IoBuffer)
      requires old(Buffered()) && x !in old(buffers) && buffers == old(buffers)[x := b] && b !in old(pool.buffers)
      requires pool.Valid() && pool.loose == {} && pool.buffers == old(pool.buffers) + {b} && b.pool == pool && b.Valid()
      requires forall y :: y in old(pool.buffers) ==> y.Steady()
      ensures Buffered() && Queues() == old(Queues())[x := b.Contents()]
    {
      hide BlockPool.Owing, IoBuffer.Contents, IoBuffer.Accurate;
      OthersStand(null);
      ValuesMore(old(buffers), x, b);
    }

    method DoNew(x: nat)
      requires Valid() && x !in buffers
      modifies Reach()
      ensures Valid() && View() == After(old(View()), NewBuffer(x), 0) && Grown() && ChainsStand({})
    {
      hide BlockPool.Owing, IoBuffer.Contents, IoBuffer.Accurate, BlockPool.Seen, Kept, Buffered, Chained, Queues, Cuts, Reach, Among;
      PoolInReach();
      var b := new IoBuffer(pool);
      pool.BuffersKept(null);
      label Made:
      buffers := buffers[x := b];
      Relabelled@Made();
      QueueAdded(x, b);
      CutsStay(null);
      NewInReach(b);
    }

    lemma PoolInReach()
      requires Buffered()
      ensures this in Reach() && pool in Reach() && pool.Valid() && pool.loose == {}
      ensures forall b :: b in pool.blocks ==> b in Reach() && b.data in Reach()
      ensures forall k :: k in chains ==> chains[k] in Reach()
      ensures Queues().Keys == buffers.Keys && Cuts().Keys == chains.Keys
    {
      hide BlockPool.Owing, IoBuffer.Contents, IoBuffer.Accurate;
    }

    twostate lemma NewInReach(new b: IoBuffer)
      requires fresh(b) && pool.blocks == old(pool.blocks) && pool.buffers == old(pool.buffers) + {b} && chains == old(chains)
      ensures Grown()
    {
    }

    twostate lemma QueueRemoved(new x: nat)
      requires old(Buffered()) && x in old(buffers) && buffers == old(buffers) - {x}
      requires pool.Valid() && pool.loose == {} && pool.buffers == old(pool.buffers) - {old(buffers)[x]}
      requires forall y :: y in old(pool.buffers) && y != old(buffers)[x] ==> y.Steady()
      ensures Buffered() && Queues() == old(Queues()) - {x}
    {
      hide BlockPool.Owing, IoBuffer.Contents, IoBuffer.Accurate;
      OthersStand(old(buffers)[x]);
      ValuesLess(old(buffers), x);
    }

    method DoDestroy(x: nat)
      requires Valid() && x in buffers
      modifies Reach()
      ensures Valid() && View() == After(old(View()), Destroy(x), 0) && Grown() && ChainsStand({})
    {
      hide BlockPool.Owing, IoBuffer.Contents, IoBuffer.Accurate, BlockPool.Seen, Kept, Buffered, Chained, Queues, Cuts, Reach, Among;
      BufferAt(x);
      Reaches(x);
      var b := buffers[x];
      b.Destroy();
      pool.BuffersKept(b);
      pool.SlicesKept(b);
      label Gone:
      buffers := buffers - {x};
      Relabelled@Gone();
      QueueRemoved(x);
      CutsLast();
      LessInReach(b);
    }

    twostate lemma LessInReach(b: IoBuffer)
      requires pool.blocks == old(pool.blocks) && pool.buffers == old(pool.buffers) - {b} && chains == old(chains)
      ensures Grown()
    {
    }

    // ----- chains come and go -----

    /** Every chain keeps its slices, and every slice its bytes. */
    twostate lemma CutsLast()
      requires old(Chained()) && unchanged(`chains) && unchanged(chains.Values) && pool.slices == old(pool.slices)
      requires forall s :: s in old(pool.slices) ==> s.Text() == old(s.Text())
      ensures Chained() && Cuts() == old(Cuts())
    {
      hide ChainText, BufferSlice.Text, Lengths;
      CoveringStays();
      if k :| k in chains && ChainText(chains[k].slices) != old(ChainText(chains[k].slices)) {
        ChainFrame(chains[k].slices);
        assert false;
      }
    }

    twostate lemma CoveringStays()
      requires old(Covering()) && unchanged(`chains) && unchanged(chains.Values) && pool.slices == old(pool.slices)
      ensures Covering()
    {
      forall s | s in pool.slices ensures exists l :: l in chains && s in chains[l].slices {
        var l :| l in old(chains) && s in old(chains[l].slices);
        assert l in chains && s in chains[l].slices;
      }
    }

    /** A chain of new slices has been added under a new name. */
    twostate predicate OneMore(new k: nat, new chain: BufferChain)
      reads *
    {
      && k !in old(chains) && chains == old(chains)[k := chain] && fresh(chain) && chain.Valid() && chain.Alive(pool)
      && (forall l :: l in old(chains) ==> unchanged(old(chains)[l]))
      && pool.slices == old(pool.slices) + SliceSet(chain.slices) && fresh(SliceSet(chain.slices))
    }

    twostate lemma SoundMore(new k: nat, new chain: BufferChain)
      requires old(Sound()) && OneMore(k, chain)
      ensures Sound()
    {
      hide Lengths;
    }

    twostate lemma ApartMore(new k: nat, new chain: BufferChain)
      requires old(Sound()) && old(Apart()) && OneMore(k, chain)
      ensures Apart()
    {
      hide Lengths, BufferChain.Valid;
      assert forall s :: s in chain.slices <==> s in SliceSet(chain.slices);
      assert forall l, s :: l in old(chains) && s in chains[l].slices ==> s in old(pool.slices);
    }

    twostate lemma CoveringMore(new k: nat, new chain: BufferChain)
      requires old(Covering()) && OneMore(k, chain)
      ensures Covering()
    {
      hide Lengths, BufferChain.Valid, BufferChain.Alive;
      forall s | s in pool.slices ensures exists l :: l in chains && s in chains[l].slices {
        if s in old(pool.slices) {
          var l :| l in old(chains) && s in old(chains[l].slices);
          assert l in chains && s in chains[l].slices;
        } else {
          assert k in chains && s in chains[k].slices;
        }
      }
    }

    twostate lemma CutAdded(new k: nat, new chain: BufferChain)
      requires old(Chained()) && OneMore(k, chain)
      requires forall s :: s in old(pool.slices) ==> s.Text() == old(s.Text())
      ensures Chained() && Cuts() == old(Cuts())[k := ChainText(chain.slices)]
    {
      hide ChainText, BufferSlice.Text, Lengths, BufferChain.Valid;
      SoundMore(k, chain);
      ApartMore(k, chain);
      CoveringMore(k, chain);
      hide Apart, Covering;
      if l :| l in old(chains) && ChainText(chains[l].slices) != old(ChainText(chains[l].slices)) {
        ChainFrame(chains[l].slices);
        assert false;
      }
    }

    method DoSlice(x: nat, n: nat, k: nat)
      requires Valid() && x in buffers && k !in chains
      modifies Reach()
      ensures Valid() && View() == After(old(View()), Slice(x, n, k), 0) && Grown() && ChainsStand({})
    {
      hide BlockPool.Owing, IoBuffer.Contents, IoBuffer.Accurate, BlockPool.Seen, Kept, Buffered, Chained, Queues, Cuts, Reach, Among;
      hide ChainText, SliceSet, BufferChain.Alive, BufferChain.Valid, BufferSlice.Text;
      BufferAt(x);
      Reaches(x);
      PoolInReach();
      var b := buffers[x];
      ghost var m := Min(n, |b.Contents()|);
      ghost var cut, rest := b.Contents()[..m], b.Contents()[m..];
      assert After(View(), Slice(x, n, k), 0) == Shadow(Queues()[x := rest], Cuts()[k := cut]);
      hide After;
      var chain := b.SlicePrefix(n);
      assert ChainText(chain.slices) == cut && b.Contents() == rest;
      pool.SlicesKept(b);
      pool.BuffersKept(b);
      chain.InPool(pool);
      label Sliced:
      chains := chains[k := chain];
      Relabelled@Sliced();
      ChainFrame@Sliced(chain.slices);
      chain.StillAlive(pool);
      CutAdded(k, chain);
      QueueChanged(x);
      MoreInReach(k, chain);
    }

    twostate lemma MoreInReach(new k: nat, new chain: BufferChain)
      requires fresh(chain) && pool.NewMemory() && pool.buffers == old(pool.buffers) && chains == old(chains)[k := chain]
      ensures Grown()
    {
    }

    method DoLiteral(k: nat, data: Bytes)
      requires Valid() && k !in chains
      modifies Reach()
      ensures Valid() && View() == After(old(View()), Literal(k, data), 0) && Grown() && ChainsStand({})
    {
      hide BlockPool.Owing, IoBuffer.Contents, IoBuffer.Accurate, BlockPool.Seen, Kept, Buffered, Chained, Queues, Cuts, Reach, Among;
      hide ChainText, SliceSet, BufferChain.Alive, BufferChain.Valid, BufferSlice.Text;
      PoolInReach();
      var chain := MakeBufferChain(pool, data);
      pool.SlicesKept(null);
      pool.BuffersKept(null);
      chain.InPool(pool);
      label Made:
      chains := chains[k := chain];
      Relabelled@Made();
      ChainFrame@Made(chain.slices);
      chain.StillAlive(pool);
      CutAdded(k, chain);
      QueuesStay();
      MoreInReach(k, chain);
    }

    method DoDuplicate(k: nat, l: nat)
      requires Valid() && k in chains && l !in chains
      modifies Reach()
      ensures Valid() && View() == After(old(View()), Duplicate(k, l), 0) && Grown() && ChainsStand({})
    {
      hide BlockPool.Owing, IoBuffer.Contents, IoBuffer.Accurate, BlockPool.Seen, Kept, Buffered, Chained, Queues, Cuts, Reach, Among;
      hide ChainText, SliceSet, BufferChain.Alive, BufferChain.Valid, BufferSlice.Text;
      PoolInReach();
      ChainAt(k);
      var chain := pool.CopyChain(chains[k]);
      pool.SlicesKept(null);
      pool.BuffersKept(null);
      chain.InPool(pool);
      label Copied:
      chains := chains[l := chain];
      Relabelled@Copied();
      ChainFrame@Copied(chain.slices);
      chain.StillAlive(pool);
      CutAdded(l, chain);
      QueuesStay();
      MoreInReach(l, chain);
    }

    /** The other chains keep their slices when one chain's are gone. */
    twostate lemma CutGone(new k: nat)
      requires old(Chained()) && k in old(chains) && chains == old(chains) - {k}
      requires forall l :: l in chains ==> unchanged(chains[l])
      requires pool.slices == old(pool.slices) - SliceSet(old(chains[k].slices))
      requires forall s :: s in pool.slices ==> s.Text() == old(s.Text())
      ensures Chained() && Cuts() == old(Cuts()) - {k}
    {
      hide ChainText, BufferSlice.Text, Lengths, BufferChain.Valid;
      SoundLess(k);
      CoveringLess(k);
      hide Covering;
      if l :| l in chains && ChainText(chains[l].slices) != old(ChainText(chains[l].slices)) {
        ChainFrame(chains[l].slices);
        assert false;
      }
    }

    twostate lemma SoundLess(new k: nat)
      requires old(Chained()) && k in old(chains) && chains == old(chains) - {k}
      requires forall l :: l in chains ==> unchanged(chains[l])
      requires pool.slices == old(pool.slices) - SliceSet(old(chains[k].slices))
      ensures Sound() && forall l, s :: l in chains && s in chains[l].slices ==> s in pool.slices
    {
      hide Lengths, BufferChain.Valid, Covering;
      assert forall l, s :: l in chains && s in chains[l].slices ==> s in old(pool.slices) && s !in old(chains[k].slices);
    }

    twostate lemma CoveringLess(new k: nat)
      requires old(Covering()) && k in old(chains) && chains == old(chains) - {k}
      requires forall l :: l in chains ==> unchanged(chains[l])
      requires pool.slices == old(pool.slices) - SliceSet(old(chains[k].slices))
      ensures Covering()
    {
      forall s | s in pool.slices ensures exists l :: l in chains && s in chains[l].slices {
        var l :| l in old(chains) && s in old(chains[l].slices);
        assert l in chains && s in chains[l].slices;
      }
    }

    method DoDrop(k: nat)
      requires Valid() && k in chains
      modifies Reach()
      ensures Valid() && View() == After(old(View()), Drop(k), 0) && Grown() && ChainsStand({k})
    {
      hide BlockPool.Owing, IoBuffer.Contents, IoBuffer.Accurate, BlockPool.Seen, Kept, Without, Buffered, Chained, Queues, Cuts, Reach, Among;
      hide ChainText, SliceSet, BufferChain.Alive, BufferChain.Valid, BufferSlice.Text;
      PoolInReach();
      ChainAt(k);
      ghost var before, gone := pool.Seen(null), SliceSet(chains[k].slices);
      pool.DropChain(chains[k]);
      pool.OthersSeen(before, gone);
      label Dropped:
      chains := chains - {k};
      Relabelled@Dropped();
      CutGone(k);
      QueuesStay();
      FewerInReach();
    }

    twostate lemma FewerInReach()
      requires pool.blocks == old(pool.blocks) && pool.buffers == old(pool.buffers) && chains.Values <= old(chains).Values
      ensures Grown()
    {
    }

    // ----- joining -----

    twostate lemma CutsJoined(new k: nat, new l: nat)
      requires old(Chained()) && unchanged(`chains) && k in chains && l in chains && k != l && pool.slices == old(pool.slices)
      requires chains[k].Valid() && chains[l].Valid()
      requires chains[k].slices == old(chains[k].slices) + old(chains[l].slices) && chains[l].slices == []
      requires forall m :: m in chains && m != k && m != l ==> unchanged(chains[m])
      requires forall s :: s in pool.slices ==> s.Text() == old(s.Text())
      ensures Chained() && Cuts() == old(Cuts())[k := ChainText(chains[k].slices)][l := []]
    {
      hide ChainText, BufferSlice.Text, Lengths, BufferChain.Valid;
      SoundJoined(k, l);
      CoveringJoined(k, l);
      hide Covering;
      chains[l].NoSlices();
      if m :| m in chains && m != k && m != l && ChainText(chains[m].slices) != old(ChainText(chains[m].slices)) {
        ChainFrame(chains[m].slices);
        assert false;
      }
    }

    twostate lemma SoundJoined(new k: nat, new l: nat)
      requires old(Sound()) && old(Apart()) && unchanged(`chains) && k in chains && l in chains && k != l && pool.slices == old(pool.slices)
      requires chains[k].Valid() && chains[l].Valid()
      requires chains[k].slices == old(chains[k].slices) + old(chains[l].slices) && chains[l].slices == []
      requires forall m :: m in chains && m != k && m != l ==> unchanged(chains[m])
      ensures Sound() && Apart()
    {
      hide Lengths;
      var p, q := old(chains[k].slices), old(chains[l].slices);
      assert forall s :: s in p ==> s !in q;
      NothingShared(p, q);
    }

    twostate lemma CoveringJoined(new k: nat, new l: nat)
      requires old(Covering()) && unchanged(`chains) && k in chains && l in chains && k != l && pool.slices == old(pool.slices)
      requires chains[k].slices == old(chains[k].slices) + old(chains[l].slices)
      requires forall m :: m in chains && m != k && m != l ==> unchanged(chains[m])
      ensures Covering()
    {
      forall s | s in pool.slices ensures exists m :: m in chains && s in chains[m].slices {
        var m :| m in old(chains) && s in old(chains[m].slices);
        assert s in chains[if m == l then k else m].slices;
      }
    }

    method DoJoin(k: nat, l: nat)
      requires k in chains && l in chains && k != l && Valid()
      modifies Reach()
      ensures Valid() && View() == After(old(View()), Join(k, l), 0) && Grown() && ChainsStand({k, l})
    {
      hide BlockPool.Owing, IoBuffer.Contents, IoBuffer.Accurate, BlockPool.Seen, Kept, Buffered, Chained, Queues, Cuts, Reach, Among;
      hide ChainText, SliceSet, BufferChain.Alive, BufferChain.Valid, BufferSlice.Text;
      PoolInReach();
      ChainAt(k);
      ChainAt(l);
      chains[k].AppendChain(chains[l]);
      Relabelled();
      CutsJoined(k, l);
      QueuesStay();
      FewerInReach();
    }

    // ----- any operation, any sequence -----

    lemma Named()
      requires Valid()
      ensures View().queues.Keys == buffers.Keys && View().cuts.Keys == chains.Keys
    {
      hide ChainText, BufferSlice.Text, Lengths, IoBuffer.Contents, BlockPool.Owing;
    }

    /** One operation; one whose names do not fit does nothing. */
    method Do(op: Op)
      requires Valid()
      modifies Reach()
      ensures Valid() && Follows(old(View()), op, View()) && Grown() && ChainsStand(Touched(op))
    {
      hide Buffered, Chained, Queues, Cuts, Reach, Valid, View;
      Named();
      ghost var s := View();
      var taken := 0;
      match op {
        case NewBuffer(x) => if x !in buffers { DoNew(x); }
        case Destroy(x) => if x in buffers { DoDestroy(x); } else { assert s.queues - {x} == s.queues; }
        case Append(x, data) => if x in buffers { DoAppend(x, data); }
        case Receive(x, data) => if x in buffers && data != [] { taken := DoReceive(x, data); } else { taken := |data|; ReceiveNothing(s, x, data); }
        case Reserve(x) => if x in buffers { DoReserve(x); }
        case Look(x) => if x in buffers { var _ := DoLook(x); }
        case Consume(x, n) => if x in buffers { DoConsume(x, n); }
        case Clear(x) => if x in buffers { DoClear(x); }
        case Slice(x, n, k) => if x in buffers && k !in chains { DoSlice(x, n, k); }
        case Literal(k, data) => if k !in chains { DoLiteral(k, data); }
        case Duplicate(k, l) => if k in chains && l !in chains { DoDuplicate(k, l); }
        case Join(k, l) => if k in chains && l in chains && k != l { DoJoin(k, l); }
        case Drop(k) => if k in chains { DoDrop(k); } else { assert s.cuts - {k} == s.cuts; }
      }
      assert View() == After(s, op, taken);
    }

    /** After any sequence of operations, queues and cuts are what the operations describe. */
    method Play(ops: seq<Op>) returns (ghost ss: seq<Shadow>)
      requires Valid()
      modifies Reach()
      ensures Valid() && Trace(ss, ops) && ss[0] == old(View()) && ss[|ops|] == View()
      ensures Grown() && ChainsStand(AllTouched(ops))
      decreases ops
    {
      hide Reach, Valid, View, Follows;
      ghost var start := View();
      if ops == [] { return [start]; }
      Do(ops[0]);
      ss := Play(ops[1..]);
      Longer(start, ops, ss);
      ss := [start] + ss;
    }

    /** A block in use counts exactly the buffers named here that list it and the slices of the chains named here. */
    lemma CountsAreExact(b: BufferBlock)
      requires Valid() && b in pool.blocks && b !in pool.free
      ensures b.refcount == |set x | x in buffers.Values && b in x.blocks| + |set s | s in pool.slices && s.block == b| > 0
      ensures forall s :: s in pool.slices ==> exists k :: k in chains && s in chains[k].slices
    {
      hide BlockPool.Owing;
      pool.CountsHolders(b);
    }

    /** When the last buffer and the last chain are gone, every block is in the free list, once. */
    lemma AllReturned()
      requires Valid() && buffers == map[] && chains == map[]
      ensures (set b | b in pool.free) == pool.blocks && |pool.free| == |pool.blocks|
    {
      hide BlockPool.Owing;
      pool.NothingLeaks();
    }

    lemma ChainAt(k: nat)
      requires Chained() && k in chains
      ensures chains[k].Valid() && chains[k].Alive(pool) && k in Cuts() && Cuts()[k] == ChainText(chains[k].slices)
      ensures forall l :: l in chains && l != k ==> chains[l] != chains[k]
    {
      hide ChainText, BufferSlice.Text, Lengths;
    }
  }

  lemma NothingShared(p: seq<BufferSlice>, q: seq<BufferSlice>)
    requires forall s :: s in p ==> s !in q
    ensures forall i, j :: 0 <= i < |p| && 0 <= j < |q| ==> p[i] != q[j]
  {
    forall i, j | 0 <= i < |p| && 0 <= j < |q| ensures p[i] != q[j] {
      assert p[i] in p;
    }
  }

  lemma ValuesMore<T>(m: map<nat, T>, x: nat, b: T)
    requires x !in m
    ensures m[x := b].Values == m.Values + {b}
  {
    var m' := m[x := b];
    assert forall y :: y in m ==> y in m' && m'[y] == m[y];
    assert x in m';
  }

  lemma ValuesLess<T>(m: map<nat, T>, x: nat)
    requires x in m && forall y :: y in m && y != x ==> m[y] != m[x]
    ensures (m - {x}).Values == m.Values - {m[x]}
  {
    var m' := m - {x};
    assert forall y :: y in m && y != x ==> y in m' && m'[y] == m[y];
  }

  lemma ReceiveNothing(s: Shadow, x: nat, data: Bytes)
    requires x !in s.queues || data == []
    ensures s == After(s, Receive(x, data), |data|)
  {
    if x in s.queues { assert s.queues[x] + [] == s.queues[x] && s.queues[x := s.queues[x]] == s.queues; }
  }
}
