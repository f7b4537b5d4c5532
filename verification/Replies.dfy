/**
 From Redis's bytes to a client's socket: a reply is cut off the connection's input as slices, waits in
 the session's queue while others use the same pool, is joined with its neighbours and written out.
 */
module Replies {
  import opened Resp
  import opened Framing
  import opened Buffers
  import opened BufferRuns
  import opened Intake
  import opened Delivery
  import opened Sessions
  import CoSockets

  /** The bytes of the named chains, one after the other. */
  function Joined(cuts: map<nat, Bytes>, names: seq<nat>): Bytes
    requires forall i :: 0 <= i < |names| ==> names[i] in cuts
  {
    if names == [] then [] else Joined(cuts, names[..|names| - 1]) + cuts[names[|names| - 1]]
  }

  lemma JoinedMore(cuts: map<nat, Bytes>, names: seq<nat>, i: nat)
    requires i < |names| && forall j :: 0 <= j < |names| ==> names[j] in cuts
    ensures Joined(cuts, names[..i + 1]) == Joined(cuts, names[..i]) + cuts[names[i]]
  {
    var more := names[..i + 1];
    assert more[..|more| - 1] == names[..i] && more[|more| - 1] == names[i];
  }

  lemma {:induction false} JoinedSame(cuts: map<nat, Bytes>, cuts': map<nat, Bytes>, names: seq<nat>)
    requires forall j :: 0 <= j < |names| ==> names[j] in cuts && names[j] in cuts' && cuts'[names[j]] == cuts[names[j]]
    ensures Joined(cuts', names) == Joined(cuts, names)
  {
    if names != [] { JoinedSame(cuts, cuts', names[..|names| - 1]); }
  }

  /** The queue of a session: every reply in a chain of its own. */
  predicate Waiting(names: set<nat>, queue: seq<nat>) {
    && (forall i :: 0 <= i < |queue| ==> queue[i] in names)
    && (forall i, j :: 0 <= i < j < |queue| ==> queue[i] != queue[j])
  }

  /** The first `count` replies have come together in the first one's chain, and the others are as they were. */
  ghost predicate Gathered(cuts: map<nat, Bytes>, cuts': map<nat, Bytes>, queue: seq<nat>, count: nat) {
    && Waiting(cuts.Keys, queue) && 1 <= count <= |queue| && cuts'.Keys == cuts.Keys
    && cuts'[queue[0]] == Joined(cuts, queue[..count])
    && forall i :: count <= i < |queue| ==> cuts'[queue[i]] == cuts[queue[i]]
  }

  lemma GatherOne(cuts: map<nat, Bytes>, queue: seq<nat>)
    requires Waiting(cuts.Keys, queue) && queue != []
    ensures Gathered(cuts, cuts, queue, 1)
  {
    JoinedMore(cuts, queue, 0);
    assert queue[..0] == [];
  }

  lemma GatherMore(s: Shadow, s': Shadow, queue: seq<nat>, count: nat)
    requires Gathered(s.cuts, s'.cuts, queue, count) && count < |queue|
    ensures Gathered(s.cuts, After(s', Join(queue[0], queue[count]), 0).cuts, queue, count + 1)
  {
    JoinedMore(s.cuts, queue, count);
  }

  /** `nextReplyFrame` on buffer `x`: a complete reply becomes chain `k`. */
  method TakeReply(world: BufferWorld, parser: RespParser, x: nat, k: nat) returns (result: Parsed<Value>)
    requires parser.Valid() && world.Valid() && x in world.buffers && k !in world.chains
    modifies world.Reach(), parser
    ensures parser.Valid() && world.Valid() && world.Grown() && world.ChainsStand({})
    ensures k in world.chains && world.chains.Keys == old(world.chains.Keys) + {k} && x in old(world.View()).queues
    ensures var s, q := old(world.View()), old(world.View()).queues[x];
            && result == Unpacked(parser.limits, parser.maxFrame, q)
            && var n := if result.Ok? then result.consumed else 0;
               world.View() == Shadow(s.queues[x := q[n..]], s.cuts[k := q[..n]])
  {
    hide BlockPool.Owing, IoBuffer.Contents, IoBuffer.Accurate, BlockPool.Seen, Kept, Among, Unpacked;
    hide BufferWorld.Buffered, BufferWorld.Chained, BufferWorld.Queues, BufferWorld.Cuts, BufferWorld.Reach;
    hide ChainText, SliceSet, BufferChain.Alive, BufferChain.Valid, BufferSlice.Text;
    world.BufferAt(x);
    world.Reaches(x);
    world.PoolInReach();
    NoParserInReach(world, parser);
    var pool, b := world.pool, world.buffers[x];
    var reply;
    result, reply := NextReplyFrame(parser, b);
    pool.SlicesKept(b);
    pool.BuffersKept(b);
    reply.InPool(pool);
    label Taken:
    world.chains := world.chains[k := reply];
    world.Relabelled@Taken();
    ChainFrame@Taken(reply.slices);
    reply.StillAlive(pool);
    world.CutAdded(k, reply);
    world.QueueChanged(x);
    world.MoreInReach(k, reply);
  }

  /** The batching loop of a session's writer: the first 64 replies, or all, end up in the first one's chain. */
  method JoinReplies(world: BufferWorld, queue: seq<nat>) returns (count: nat)
    requires world.Valid() && queue != [] && Waiting(world.chains.Keys, queue)
    modifies world.Reach()
    ensures world.Valid() && world.Grown() && count == Min(OUTPUT_BATCH, |queue|)
    ensures Gathered(old(world.View()).cuts, world.View().cuts, queue, count)
  {
    hide BufferWorld.Valid, BufferWorld.View, BufferWorld.Reach, Gathered;
    Named(world);
    ghost var s := world.View();
    count := 1;
    GatherOne(s.cuts, queue);
    while count < OUTPUT_BATCH && count < |queue|
      invariant 1 <= count <= Min(OUTPUT_BATCH, |queue|) && world.Valid() && world.Grown()
      invariant Gathered(s.cuts, world.View().cuts, queue, count) && Waiting(world.chains.Keys, queue)
    {
      GatherMore(s, world.View(), queue, count);
      world.DoJoin(queue[0], queue[count]);
      KeysStay(s.cuts, world.View().cuts, queue, count + 1);
      Named(world);
      count := count + 1;
    }
  }

  lemma KeysStay(cuts: map<nat, Bytes>, cuts': map<nat, Bytes>, queue: seq<nat>, count: nat)
    requires Gathered(cuts, cuts', queue, count)
    ensures Waiting(cuts'.Keys, queue)
  {
  }

  /**
   One turn of a session's writer: the bytes of the first 64 replies, or all, reach the client's socket in
   order -- a prefix of them at every moment, all of them on success -- whatever else the pool is used for.
   */
  method SendReplies(world: BufferWorld, queue: seq<nat>, sock: CoSockets.CoSocket, rounds: seq<Round>)
    returns (count: nat, status: CoSockets.WriteStatus)
    requires world.Valid() && queue != [] && Waiting(world.chains.Keys, queue)
    requires forall j :: 0 <= j < |rounds| ==> queue[0] !in AllTouched(rounds[j].ops)
    modifies world.Reach(), sock
    ensures world.Valid() && count == Min(OUTPUT_BATCH, |queue|) && Waiting(old(world.View()).cuts.Keys, queue)
    ensures var text := Joined(old(world.View()).cuts, queue[..count]);
            && old(sock.wire) <= sock.wire <= old(sock.wire) + text
            && (status.WriteOk? ==> sock.wire == old(sock.wire) + text)
    ensures status.IoError? ==> exists j :: 0 <= j < |rounds| && !CoSockets.Good(rounds[j].answer)
  {
    hide BufferWorld.Valid, BufferWorld.View, BufferWorld.Reach, Joined;
    NoSocketInReach(world, sock);
    count := JoinReplies(world, queue);
    Named(world);
    NoSocketInReach(world, sock);
    status := WriteUnderway(world, queue[0], sock, rounds);
  }

  /**
   End to end: a reply cut off Redis's input, and the replies that wait beside it, reach the client's
   socket byte for byte, although the input is read into, consumed and sliced again, other buffers
   and chains come and go, and blocks are recycled, before and while they are written.
   */
  method Relay(world: BufferWorld, parser: RespParser, x: nat, k: nat, meanwhile: seq<Op>, queue: seq<nat>,
               sock: CoSockets.CoSocket, rounds: seq<Round>)
    returns (result: Parsed<Value>, count: nat, status: CoSockets.WriteStatus)
    requires parser.Valid() && world.Valid() && x in world.buffers && k !in world.chains
    requires queue != [] && Waiting(world.chains.Keys + {k}, queue)
    requires forall i :: 0 <= i < |queue| ==> queue[i] !in AllTouched(meanwhile)
    requires forall j :: 0 <= j < |rounds| ==> queue[0] !in AllTouched(rounds[j].ops)
    modifies world.Reach(), parser, sock
    ensures parser.Valid() && world.Valid() && count == Min(OUTPUT_BATCH, |queue|) && x in old(world.View()).queues
    ensures var q := old(world.View()).queues[x];
            && result == Unpacked(parser.limits, parser.maxFrame, q)
            && var cuts := old(world.View()).cuts[k := q[..if result.Ok? then result.consumed else 0]];
               && Waiting(cuts.Keys, queue)
               && var text := Joined(cuts, queue[..count]);
                  && old(sock.wire) <= sock.wire <= old(sock.wire) + text
                  && (status.WriteOk? ==> sock.wire == old(sock.wire) + text)
    ensures status.IoError? ==> exists j :: 0 <= j < |rounds| && !CoSockets.Good(rounds[j].answer)
  {
    hide BufferWorld.Valid, BufferWorld.View, BufferWorld.Reach, Joined, Unpacked;
    Named(world);
    NoSocketInReach(world, sock);
    NoParserInReach(world, parser);
    result := TakeReply(world, parser, x, k);
    ghost var cuts := world.View().cuts;
    Named(world);
    NoSocketInReach(world, sock);
    NoParserInReach(world, parser);
    ghost var ss := world.Play(meanwhile);
    forall i | 0 <= i < |queue| ensures queue[i] in world.View().cuts && world.View().cuts[queue[i]] == cuts[queue[i]] {
      CutStays(ss, meanwhile, queue[i]);
    }
    Named(world);
    NoSocketInReach(world, sock);
    NoParserInReach(world, parser);
    JoinedSame(cuts, world.View().cuts, queue[..Min(OUTPUT_BATCH, |queue|)]);
    count, status := SendReplies(world, queue, sock, rounds);
  }
}
