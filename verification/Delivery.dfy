/**
 From a client's bytes to Redis's socket without a copy: frames are cut off the input as slices, other
 coroutines go on using the same pool, and `writeAll` sends what the slices point to.
 */
module Delivery {
  import opened Resp
  import opened Framing
  import opened Buffers
  import opened BufferRuns
  import opened Intake
  import CoSockets

  /** What the other coroutines do to the pool while one is suspended in `writeAll`, and how the kernel then answers. */
  datatype Round = Round(ops: seq<Op>, answer: CoSockets.Kernel)

  // ----- reading slices -----

  lemma PieceLengths(pool: BlockPool, q: seq<BufferSlice>)
    requires pool.Valid() && forall i :: 0 <= i < |q| ==> q[i] in pool.slices
    ensures forall i :: 0 <= i < |q| ==> |Texts(q)[i]| == q[i].length
  {
    hide BlockPool.Owing;
    pool.SliceFacts();
  }

  /** Pieces of the same lengths that join to the same bytes are the same pieces. */
  lemma {:induction false} SamePieces(p: seq<Bytes>, q: seq<Bytes>)
    requires |p| == |q| && (forall i :: 0 <= i < |p| ==> |p[i]| == |q[i]|) && CoSockets.Flatten(p) == CoSockets.Flatten(q)
    ensures p == q
  {
    if p != [] {
      var a, b := CoSockets.Flatten(p), CoSockets.Flatten(q);
      assert p[0] == a[..|p[0]|] && q[0] == b[..|q[0]|];
      assert CoSockets.Flatten(p[1..]) == a[|p[0]|..] && CoSockets.Flatten(q[1..]) == b[|q[0]|..];
      SamePieces(p[1..], q[1..]);
      assert p == [p[0]] + p[1..] && q == [q[0]] + q[1..];
    }
  }

  // ----- writing while others work -----

  /** Whatever the others do, short of touching this chain, its slices still point to the same bytes. */
  method OthersWork(world: BufferWorld, k: nat, ops: seq<Op>, ghost pieces: seq<Bytes>)
    requires world.Valid() && k in world.chains && pieces == Texts(world.chains[k].slices) && k !in AllTouched(ops)
    modifies world.Reach()
    ensures world.Valid() && world.Grown() && k in world.chains && pieces == Texts(world.chains[k].slices)
  {
    hide BufferWorld.Valid, BufferWorld.View, BufferWorld.Reach, ChainText, BlockPool.Owing;
    ghost var q := world.chains[k].slices;
    Held(world, k);
    ChainOnTheWire(q);
    ghost var ss := world.Play(ops);
    CutStays(ss, ops, k);
    Held(world, k);
    ChainOnTheWire(q);
    SamePieces(pieces, Texts(q));
  }

  /** What the world says of a chain. */
  lemma Held(world: BufferWorld, k: nat)
    requires world.Valid() && k in world.chains
    ensures k in world.View().cuts && world.View().cuts[k] == ChainText(world.chains[k].slices)
    ensures forall i :: 0 <= i < |world.chains[k].slices| ==> |Texts(world.chains[k].slices)[i]| == world.chains[k].slices[i].length
  {
    hide BlockPool.Owing, ChainText, IoBuffer.Contents, IoBuffer.Accurate, BufferWorld.Apart, BufferWorld.Covering;
    world.ChainAt(k);
    world.chains[k].InPool(world.pool);
    PieceLengths(world.pool, world.chains[k].slices);
  }

  lemma NoSocketInReach(world: BufferWorld, sock: CoSockets.CoSocket)
    ensures sock !in world.Reach()
  {
  }

  /** The others work, then one turn of `writeAll` reads the slices afresh. */
  method OneRound(world: BufferWorld, k: nat, sock: CoSockets.CoSocket, round: Round, index: nat, offset: nat,
                  ghost pieces: seq<Bytes>, ghost sent: nat, ghost start: Bytes)
    returns (outcome: CoSockets.Outcome, index': nat, offset': nat, ghost sent': nat)
    requires world.Valid() && k in world.chains && k !in AllTouched(round.ops)
    requires pieces == Texts(world.chains[k].slices) && index < |pieces|
    requires CoSockets.Progress(pieces, index, offset, sent, start, sock.wire)
    modifies world.Reach(), sock
    ensures world.Valid() && world.Grown() && k in world.chains && pieces == Texts(world.chains[k].slices)
    ensures CoSockets.Progress(pieces, index', offset', sent', start, sock.wire)
    ensures outcome.Finished? ==> sent' == |CoSockets.Flatten(pieces)|
    ensures outcome.GaveUp? ==> !CoSockets.Good(round.answer)
  {
    hide BufferWorld.Valid, BufferWorld.View, BufferWorld.Reach, CoSockets.Rest, CoSockets.Flatten, CoSockets.Progress;
    CoSockets.InBounds(pieces, index, offset, sent, start, sock.wire);
    NoSocketInReach(world, sock);
    OthersWork(world, k, round.ops, pieces);
    var slices := Texts(world.chains[k].slices);
    ghost var before := sock.wire;
    NoSocketInReach(world, sock);
    label Ready:
    ghost var m;
    outcome, index', offset', m := sock.Turn(slices, index, offset, round.answer);
    world.NothingHappened@Ready();
    sent' := sent + m;
    CoSockets.Advances(pieces, index, offset, sent, start, before, index', offset', m, sock.wire);
    CoSockets.InBounds(pieces, index', offset', sent', start, sock.wire);
    CoSockets.InBounds(pieces, index, offset, sent, start, before);
  }

  /**
   `writeAll` of a chain, suspended again and again while others append, consume, slice, copy, drop and
   recycle: at every moment a prefix of the chain's bytes is on the wire, and on success all of them.
   */
  method WriteUnderway(world: BufferWorld, k: nat, sock: CoSockets.CoSocket, rounds: seq<Round>) returns (status: CoSockets.WriteStatus)
    requires world.Valid() && k in world.chains && forall j :: 0 <= j < |rounds| ==> k !in AllTouched(rounds[j].ops)
    modifies world.Reach(), sock
    ensures world.Valid() && world.Grown() && k in old(world.View()).cuts
    ensures var text := old(world.View()).cuts[k];
            && old(sock.wire) <= sock.wire <= old(sock.wire) + text
            && (status.WriteOk? ==> sock.wire == old(sock.wire) + text)
    ensures status.IoError? ==> exists j :: 0 <= j < |rounds| && !CoSockets.Good(rounds[j].answer)
  {
    hide BufferWorld.Valid, BufferWorld.View, BufferWorld.Reach, ChainText, CoSockets.Rest, CoSockets.Flatten, CoSockets.Progress;
    Held(world, k);
    ghost var pieces := Texts(world.chains[k].slices);
    ChainOnTheWire(world.chains[k].slices);
    var index: nat, offset: nat, turn: nat := 0, 0, 0;
    ghost var sent: nat := 0;
    CoSockets.AtStart(pieces, sock.wire);
    var outcome := CoSockets.OnGoing;
    while index < |world.chains[k].slices| && turn < |rounds| && outcome.OnGoing?
      invariant world.Valid() && world.Grown() && k in world.chains && pieces == Texts(world.chains[k].slices)
      invariant CoSockets.Progress(pieces, index, offset, sent, old(sock.wire), sock.wire) && turn <= |rounds|
      invariant outcome.Finished? ==> sent == |CoSockets.Flatten(pieces)|
      invariant outcome.GaveUp? ==> exists j :: 0 <= j < |rounds| && !CoSockets.Good(rounds[j].answer)
      decreases |rounds| - turn
    {
      outcome, index, offset, sent := OneRound(world, k, sock, rounds[turn], index, offset, pieces, sent, old(sock.wire));
      turn := turn + 1;
    }
    CoSockets.InBounds(pieces, index, offset, sent, old(sock.wire), sock.wire);
    CoSockets.RestAtEnd(pieces, offset);
    status := if outcome.Finished? || index == |world.chains[k].slices| then CoSockets.WriteOk
              else if outcome.GaveUp? then CoSockets.IoError else CoSockets.Suspended;
  }

  // ----- from the client's input to Redis's socket -----

  /** A reader's turn cuts the accepted frames off buffer `x` into chain `k`. */
  method TakeInto(world: BufferWorld, cfg: Config, parser: RespParser, x: nat, k: nat) returns (parsed: nat)
    requires parser.Valid() && parser.limits == cfg.limits && parser.maxFrame == cfg.maxFrame
    requires world.Valid() && x in world.buffers && k !in world.chains
    modifies world.Reach(), parser
    ensures parser.Valid() && world.Valid() && world.Grown() && k in world.chains && x in old(world.View()).queues
    ensures var s, q := old(world.View()), old(world.View()).queues[x];
            var rs := Scan(cfg, q, cfg.pipeline).0;
            && parsed == |rs| && FrameBytes(rs) <= q
            && world.View() == Shadow(s.queues[x := q[|FrameBytes(rs)|..]], s.cuts[k := FrameBytes(rs)])
  {
    hide BlockPool.Owing, IoBuffer.Contents, IoBuffer.Accurate, BlockPool.Seen, Kept, Among, FrameBytes, Scan, Trouble;
    hide BufferWorld.Buffered, BufferWorld.Chained, BufferWorld.Queues, BufferWorld.Cuts, BufferWorld.Reach;
    hide ChainText, SliceSet, BufferChain.Alive, BufferChain.Valid, BufferSlice.Text;
    world.BufferAt(x);
    world.Reaches(x);
    world.PoolInReach();
    NoParserInReach(world, parser);
    var pool, b := world.pool, world.buffers[x];
    ghost var q := b.Contents();
    var batch, error, rejected, starved;
    batch, parsed, error, rejected, starved := TakeBatch(cfg, parser, b);
    ghost var rs := Scan(cfg, q, cfg.pipeline).0;
    assert q[|FrameBytes(rs)|..] == b.Contents();
    pool.SlicesKept(b);
    pool.BuffersKept(b);
    batch.InPool(pool);
    label Taken:
    world.chains := world.chains[k := batch];
    world.Relabelled@Taken();
    ChainFrame@Taken(batch.slices);
    batch.StillAlive(pool);
    world.CutAdded(k, batch);
    world.QueueChanged(x);
    world.MoreInReach(k, batch);
  }

  lemma NoParserInReach(world: BufferWorld, parser: RespParser)
    ensures parser !in world.Reach()
  {
  }

  /**
   End to end: the frames that one turn accepts from a client's input are what reaches Redis's socket --
   a prefix of them at every moment, all of them on success -- although the input is appended to,
   consumed and sliced again, other buffers and chains of the pool come and go, and blocks are
   recycled, before and while they are written.
   */
  method Deliver(world: BufferWorld, cfg: Config, parser: RespParser, x: nat, k: nat,
                 meanwhile: seq<Op>, sock: CoSockets.CoSocket, rounds: seq<Round>)
    returns (parsed: nat, status: CoSockets.WriteStatus)
    requires parser.Valid() && parser.limits == cfg.limits && parser.maxFrame == cfg.maxFrame
    requires world.Valid() && x in world.buffers && k !in world.chains
    requires k !in AllTouched(meanwhile) && forall j :: 0 <= j < |rounds| ==> k !in AllTouched(rounds[j].ops)
    modifies world.Reach(), parser, sock
    ensures parser.Valid() && world.Valid() && x in old(world.View()).queues
    ensures var rs := Scan(cfg, old(world.View()).queues[x], cfg.pipeline).0;
            && parsed == |rs|
            && old(sock.wire) <= sock.wire <= old(sock.wire) + FrameBytes(rs)
            && (status.WriteOk? ==> sock.wire == old(sock.wire) + FrameBytes(rs))
    ensures status.IoError? ==> exists j :: 0 <= j < |rounds| && !CoSockets.Good(rounds[j].answer)
  {
    hide BufferWorld.Valid, BufferWorld.View, BufferWorld.Reach, FrameBytes, Scan;
    NoSocketInReach(world, sock);
    NoParserInReach(world, parser);
    parsed := TakeInto(world, cfg, parser, x, k);
    NoSocketInReach(world, sock);
    NoParserInReach(world, parser);
    ghost var ss := world.Play(meanwhile);
    CutStays(ss, meanwhile, k);
    Named(world);
    NoSocketInReach(world, sock);
    NoParserInReach(world, parser);
    status := WriteUnderway(world, k, sock, rounds);
  }

  lemma Named(world: BufferWorld)
    requires world.Valid()
    ensures world.View().cuts.Keys == world.chains.Keys
  {
    hide BlockPool.Owing, ChainText, IoBuffer.Contents, IoBuffer.Accurate;
    world.Named();
  }
}
