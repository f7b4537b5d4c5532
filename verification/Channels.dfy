/** One backend connection: `BackendChannel`, its two loops and the Redis server behind it. */
module Channels {
  import opened Resp
  import opened Signals
  import opened Framing

  /** Where a session object lives.  Addresses are reused once a session has been destroyed. */
  type Addr = nat

  /** Names the `index`-th request of the `inc`-th session ever started. */
  datatype Tag = Tag(inc: nat, index: nat)

  /** `frames` are the commands that make up the batch's bytes, `tags` their names; `count` is what the code carries. */
  datatype RequestBatch = RequestBatch(owner: Addr, count: int, tags: seq<Tag>, frames: seq<Request>)
  datatype PendingBatch = PendingBatch(owner: Option<Addr>, remaining: int, tags: seq<Tag>)

  datatype ChannelState = Stopped | Connecting | Ready | Closing

  /** Where `run` (with `writerLoop` inside it) is suspended or about to continue. */
  datatype RunPc = Idle | RunTop | AtConnect | BatchTop | Writing | JoinTop | Backoff

  datatype ReceivePc = NoReader | ReceiveTop | Receiving | Parsing

  /** What has become of the write queue on the connection at hand: history the source does not keep. */
  datatype Connection = Connection(
    popped: seq<RequestBatch>,  // the batches taken off the write queue, in order
    carried: seq<Tag>           // the commands that have gone out whole, in order
  )

  datatype Channel = Channel(
    state: ChannelState,
    stopRequested: bool,
    readerDone: bool,
    writeQueue: seq<RequestBatch>,
    pendingQueue: seq<PendingBatch>,
    queuedCommands: int,
    writerSignal: Signal,
    run: RunPc,
    reader: ReceivePc,
    redisIn: seq<Tag>,    // replies complete in our input buffer, not yet dispatched
    inTransit: seq<Tag>,  // replies Redis has sent and we have not read
    atRedis: seq<Tag>,    // commands Redis has received whole and not answered
    unsent: seq<Tag>,     // commands of the batch being written, not yet wholly on the wire
    leftover: bool,       // bytes behind the complete replies in our input: a reply that has begun, or garbage
    conn: Connection
  )

  const NewChannel :=
    Channel(Stopped, false, true, [], [], 0, IdleSignal, Idle, NoReader, [], [], [], [], false, Connection([], []))

  /** What Redis owes us, in the order it will answer, then what we still have to send it. */
  function Unanswered(ch: Channel): seq<Tag> { ch.redisIn + ch.inTransit + ch.atRedis + ch.unsent }

  // ----- what the queues say -----

  function PendingTags(q: seq<PendingBatch>): seq<Tag> {
    if q == [] then [] else q[0].tags + PendingTags(q[1..])
  }

  function OwnedPending(q: seq<PendingBatch>, a: Addr): seq<Tag> {
    if q == [] then []
    else (if q[0].owner == Some(a) then q[0].tags else []) + OwnedPending(q[1..], a)
  }

  function OwnedWrites(q: seq<RequestBatch>, a: Addr): seq<Tag> {
    if q == [] then []
    else (if q[0].owner == a then q[0].tags else []) + OwnedWrites(q[1..], a)
  }

  function PendingCount(q: seq<PendingBatch>): int {
    if q == [] then 0 else q[0].remaining + PendingCount(q[1..])
  }

  function WriteCount(q: seq<RequestBatch>): int {
    if q == [] then 0 else q[0].count + WriteCount(q[1..])
  }

  /** The commands of session `a` that this channel still owes a reply, oldest first. */
  function Owned(ch: Channel, a: Addr): seq<Tag> {
    OwnedPending(ch.pendingQueue, a) + OwnedWrites(ch.writeQueue, a)
  }

  function Owners(ch: Channel): set<Addr> {
    (set i | 0 <= i < |ch.writeQueue| :: ch.writeQueue[i].owner)
    + (set i | 0 <= i < |ch.pendingQueue| && ch.pendingQueue[i].owner.Some? :: ch.pendingQueue[i].owner.value)
  }

  /** The tag stands in the reply stream for a session that has left. */
  ghost predicate Orphan(ch: Channel, t: Tag) {
    exists i :: 0 <= i < |ch.pendingQueue| && ch.pendingQueue[i].owner.None? && t in ch.pendingQueue[i].tags
  }

  // ----- operations -----

  /** `submit`, for a healthy channel and a positive count. */
  function Submit(ch: Channel, owner: Addr, count: int, tags: seq<Tag>, frames: seq<Request>): Channel {
    ch.(writeQueue := ch.writeQueue + [RequestBatch(owner, count, tags, frames)],
        queuedCommands := ch.queuedCommands + count,
        writerSignal := ch.writerSignal.Notify())
  }

  function Erase(q: seq<RequestBatch>, s: set<Addr>): seq<RequestBatch> {
    if q == [] then []
    else if q[0].owner in s then Erase(q[1..], s)
    else [q[0]] + Erase(q[1..], s)
  }

  function Disown(p: PendingBatch, s: set<Addr>): PendingBatch {
    if p.owner.Some? && p.owner.value in s then p.(owner := None) else p
  }

  function DisownAll(q: seq<PendingBatch>, s: set<Addr>): (r: seq<PendingBatch>)
    ensures |r| == |q| && forall i :: 0 <= i < |q| ==> r[i] == Disown(q[i], s)
  {
    seq(|q|, i requires 0 <= i < |q| => Disown(q[i], s))
  }

  /** `detachOwner` for every session in `s`. */
  function Detach(ch: Channel, s: set<Addr>): Channel {
    ch.(writeQueue := Erase(ch.writeQueue, s),
        queuedCommands := ch.queuedCommands - (WriteCount(ch.writeQueue) - WriteCount(Erase(ch.writeQueue, s))),
        pendingQueue := DisownAll(ch.pendingQueue, s))
  }

  /** The queue part of `failConnection`, before any owner is told. */
  function Clear(ch: Channel): Channel {
    ch.(state := Closing, writeQueue := [], pendingQueue := [], queuedCommands := 0,
        writerSignal := ch.writerSignal.Notify())
  }

  /** `writerLoop` takes the next batch: it occupies a reply slot before its first byte is written. */
  function TakeBatch(ch: Channel): Channel
    requires ch.writeQueue != []
  {
    var batch := ch.writeQueue[0];
    ch.(writeQueue := ch.writeQueue[1..],
        pendingQueue := ch.pendingQueue + [PendingBatch(Some(batch.owner), batch.count, batch.tags)],
        run := Writing,
        unsent := batch.tags,
        conn := ch.conn.(popped := ch.conn.popped + [batch]))
  }

  /** The queue part of `dispatchReply`: the front batch gives up one slot. */
  function PopReply(ch: Channel): Channel
    requires ch.pendingQueue != []
  {
    var p := ch.pendingQueue[0];
    ch.(pendingQueue := if p.remaining - 1 == 0 then ch.pendingQueue[1..]
                        else [p.(remaining := p.remaining - 1, tags := if p.tags == [] then [] else p.tags[1..])]
                             + ch.pendingQueue[1..],
        queuedCommands := ch.queuedCommands - 1)
  }

  /** `k` more commands of the batch being written are wholly on the wire. */
  function Transmitted(ch: Channel, k: nat): Channel
    requires k <= |ch.unsent|
  {
    ch.(atRedis := ch.atRedis + ch.unsent[..k], unsent := ch.unsent[k..],
        conn := ch.conn.(carried := ch.conn.carried + ch.unsent[..k]))
  }

  /** Redis answers its oldest `k` commands. */
  function Replied(ch: Channel, k: nat): Channel
    requires k <= |ch.atRedis|
  {
    ch.(inTransit := ch.inTransit + ch.atRedis[..k], atRedis := ch.atRedis[k..])
  }

  /** `readSome` brings in enough bytes to complete `k` replies, and perhaps some more. */
  function Received(ch: Channel, k: nat, more: bool): Channel
    requires k <= |ch.inTransit|
  {
    ch.(redisIn := ch.redisIn + ch.inTransit[..k], inTransit := ch.inTransit[k..], reader := Parsing, leftover := more)
  }

  /** `socket_.close()` and `redis_in_.clear()` after both directions have exited. */
  function Closed(ch: Channel): Channel {
    ch.(redisIn := [], inTransit := [], atRedis := [], unsent := [], leftover := false,
        run := if ch.stopRequested then RunTop else Backoff)
  }

  function EndReader(ch: Channel): Channel {
    ch.(reader := NoReader, readerDone := true, writerSignal := ch.writerSignal.Notify())
  }

  // ----- the channel invariant -----

  predicate Serving(run: RunPc) { run.BatchTop? || run.Writing? || run.JoinTop? }

  predicate ControlInv(ch: Channel) {
    && (ch.run.Idle? <==> ch.state.Stopped?)
    && (ch.run.RunTop? || ch.run.Backoff? ==> ch.state.Connecting? || ch.state.Closing?)
    && (ch.run.AtConnect? ==> ch.state.Connecting?)
    && (ch.run.BatchTop? || ch.run.Writing? ==> ch.state.Ready? || ch.state.Closing?)
    && (ch.run.JoinTop? ==> ch.state.Closing?)
    && (ch.readerDone <==> ch.reader.NoReader?)
    && (!Serving(ch.run) ==> ch.reader.NoReader? && Unanswered(ch) == [] && !ch.leftover)
    && (ch.state.Ready? ==> !ch.reader.NoReader?)
    && (ch.unsent != [] ==> ch.run.Writing?)
  }

  /** A sleeping writer has nothing to do; a sleeping join still waits for the reader. */
  predicate ChannelAwake(ch: Channel) {
    && (!ch.writerSignal.waiter.Running? ==> ch.run.BatchTop? || ch.run.JoinTop?)
    && (ch.writerSignal.waiter.Blocked? && ch.run.BatchTop? ==> ch.state.Ready? && ch.writeQueue == [])
    && (ch.writerSignal.waiter.Blocked? && ch.run.JoinTop? ==> !ch.readerDone)
  }

  predicate BatchesInv(ch: Channel) {
    && (forall i :: 0 <= i < |ch.writeQueue| ==> 0 < ch.writeQueue[i].count == |ch.writeQueue[i].tags|)
    && (forall i :: 0 <= i < |ch.pendingQueue| ==> 0 < ch.pendingQueue[i].remaining == |ch.pendingQueue[i].tags|)
  }

  predicate QueueInv(ch: Channel) {
    && BatchesInv(ch)
    && ch.queuedCommands == WriteCount(ch.writeQueue) + PendingCount(ch.pendingQueue)
    && (ch.state.Ready? ==> PendingTags(ch.pendingQueue) == Unanswered(ch))
    && (!ch.state.Ready? ==> ch.writeQueue == [] && ch.pendingQueue == [])
  }

  /** The commands of the given batches, in order. */
  function Commands(batches: seq<RequestBatch>): seq<Tag> {
    if batches == [] then [] else Commands(batches[..|batches| - 1]) + batches[|batches| - 1].tags
  }

  /** All batches but the last have gone out whole, and the last is whole, being written, or cut for good. */
  predicate HistoryInv(ch: Channel) {
    && ch.conn.carried + ch.unsent <= Commands(ch.conn.popped)
    && (ch.state.Ready? || ch.unsent != [] ==> ch.conn.carried + ch.unsent == Commands(ch.conn.popped))
    && (ch.conn.popped != [] ==> Commands(ch.conn.popped[..|ch.conn.popped| - 1]) <= ch.conn.carried)
  }

  predicate ChannelInv(ch: Channel) { ControlInv(ch) && ChannelAwake(ch) && QueueInv(ch) && HistoryInv(ch) }

  // ----- lemmas about queues -----

  lemma {:induction false} PendingTagsAppend(q: seq<PendingBatch>, x: PendingBatch)
    ensures PendingTags(q + [x]) == PendingTags(q) + x.tags
  {
    if q == [] {
      assert q + [x] == [x] && [x][1..] == [];
    } else {
      PendingTagsAppend(q[1..], x);
      assert (q + [x])[1..] == q[1..] + [x];
    }
  }

  lemma {:induction false} PendingCountAppend(q: seq<PendingBatch>, x: PendingBatch)
    ensures PendingCount(q + [x]) == PendingCount(q) + x.remaining
  {
    if q == [] {
      assert q + [x] == [x] && [x][1..] == [];
    } else {
      PendingCountAppend(q[1..], x);
      assert (q + [x])[1..] == q[1..] + [x];
    }
  }

  lemma {:induction false} OwnedPendingAppend(q: seq<PendingBatch>, x: PendingBatch, a: Addr)
    ensures OwnedPending(q + [x], a) == OwnedPending(q, a) + (if x.owner == Some(a) then x.tags else [])
  {
    if q == [] {
      assert q + [x] == [x] && [x][1..] == [];
    } else {
      OwnedPendingAppend(q[1..], x, a);
      assert (q + [x])[1..] == q[1..] + [x];
    }
  }

  lemma {:induction false} WriteAppend(q: seq<RequestBatch>, x: RequestBatch, a: Addr)
    ensures WriteCount(q + [x]) == WriteCount(q) + x.count
    ensures OwnedWrites(q + [x], a) == OwnedWrites(q, a) + (if x.owner == a then x.tags else [])
  {
    if q == [] {
      assert q + [x] == [x] && [x][1..] == [];
    } else {
      WriteAppend(q[1..], x, a);
      assert (q + [x])[1..] == q[1..] + [x];
    }
  }

  lemma {:induction false} DisownKeeps(q: seq<PendingBatch>, s: set<Addr>, a: Addr)
    ensures PendingTags(DisownAll(q, s)) == PendingTags(q)
    ensures PendingCount(DisownAll(q, s)) == PendingCount(q)
    ensures OwnedPending(DisownAll(q, s), a) == if a in s then [] else OwnedPending(q, a)
  {
    if q != [] {
      DisownKeeps(q[1..], s, a);
      assert DisownAll(q, s)[1..] == DisownAll(q[1..], s);
    }
  }

  lemma {:induction false} EraseKeeps(q: seq<RequestBatch>, s: set<Addr>, a: Addr)
    ensures OwnedWrites(Erase(q, s), a) == if a in s then [] else OwnedWrites(q, a)
    ensures forall i :: 0 <= i < |Erase(q, s)| ==> Erase(q, s)[i] in q
  {
    if q != [] {
      EraseKeeps(q[1..], s, a);
      if q[0].owner !in s {
        assert ([q[0]] + Erase(q[1..], s))[1..] == Erase(q[1..], s);
      }
    }
  }

  /** A session owns commands here exactly when it appears as an owner. */
  lemma {:induction false} OwnedPendingEmpty(q: seq<PendingBatch>, a: Addr)
    requires forall i :: 0 <= i < |q| ==> q[i].tags != []
    ensures OwnedPending(q, a) == [] <==> forall i :: 0 <= i < |q| ==> q[i].owner != Some(a)
  {
    if q != [] {
      OwnedPendingEmpty(q[1..], a);
      assert forall i :: 1 <= i < |q| ==> q[i] == q[1..][i - 1];
      assert forall i :: 0 <= i < |q[1..]| ==> q[1..][i] == q[i + 1];
    }
  }

  lemma {:induction false} OwnedWritesEmpty(q: seq<RequestBatch>, a: Addr)
    requires forall i :: 0 <= i < |q| ==> q[i].tags != []
    ensures OwnedWrites(q, a) == [] <==> forall i :: 0 <= i < |q| ==> q[i].owner != a
  {
    if q != [] {
      OwnedWritesEmpty(q[1..], a);
      assert forall i :: 1 <= i < |q| ==> q[i] == q[1..][i - 1];
      assert forall i :: 0 <= i < |q[1..]| ==> q[1..][i] == q[i + 1];
    }
  }

  lemma OwnedIffOwner(ch: Channel, a: Addr)
    requires BatchesInv(ch)
    ensures Owned(ch, a) != [] <==> a in Owners(ch)
  {
    OwnedPendingEmpty(ch.pendingQueue, a);
    OwnedWritesEmpty(ch.writeQueue, a);
  }

  // ----- what the operations keep -----

  lemma SubmitKeeps(ch: Channel, owner: Addr, tags: seq<Tag>, frames: seq<Request>, a: Addr)
    requires ChannelInv(ch) && ch.state.Ready? && tags != []
    ensures ChannelInv(Submit(ch, owner, |tags|, tags, frames))
    ensures Owned(Submit(ch, owner, |tags|, tags, frames), a) == Owned(ch, a) + (if a == owner then tags else [])
  {
    hide OwnedPending, PendingTags, PendingCount, OwnedWrites, WriteCount, Commands;
    WriteAppend(ch.writeQueue, RequestBatch(owner, |tags|, tags, frames), a);
  }

  lemma DetachKeeps(ch: Channel, s: set<Addr>, a: Addr)
    requires ChannelInv(ch)
    ensures ChannelInv(Detach(ch, s))
    ensures Owned(Detach(ch, s), a) == if a in s then [] else Owned(ch, a)
  {
    hide OwnedPending, PendingTags, PendingCount, OwnedWrites, Commands;
    EraseKeeps(ch.writeQueue, s, a);
    DisownKeeps(ch.pendingQueue, s, a);
    assert ch.writeQueue == [] ==> Erase(ch.writeQueue, s) == [];
  }

  /** Detaching orphans only the commands of the sessions that left. */
  lemma DetachOrphans(ch: Channel, s: set<Addr>, t: Tag) returns (a: Addr)
    requires BatchesInv(ch) && Orphan(Detach(ch, s), t) && !Orphan(ch, t)
    ensures a in s && t in Owned(ch, a)
  {
    var q := DisownAll(ch.pendingQueue, s);
    var i :| 0 <= i < |q| && q[i].owner.None? && t in q[i].tags;
    a := ch.pendingQueue[i].owner.value;
    OwnedPendingContains(ch.pendingQueue, i, t);
  }

  lemma {:induction false} OwnedPendingContains(q: seq<PendingBatch>, i: nat, t: Tag)
    requires i < |q| && q[i].owner.Some? && t in q[i].tags
    ensures t in OwnedPending(q, q[i].owner.value)
  {
    if i > 0 { OwnedPendingContains(q[1..], i - 1, t); }
  }

  lemma ClearKeeps(ch: Channel, a: Addr)
    requires ChannelInv(ch) && ch.state.Ready?
    ensures ChannelInv(Clear(ch)) && Owned(Clear(ch), a) == []
    ensures forall t :: !Orphan(Clear(ch), t)
  {
  }

  lemma TakeBatchOwned(ch: Channel, a: Addr)
    requires ch.writeQueue != []
    ensures Owned(TakeBatch(ch), a) == Owned(ch, a)
  {
    var batch := ch.writeQueue[0];
    OwnedPendingAppend(ch.pendingQueue, PendingBatch(Some(batch.owner), batch.count, batch.tags), a);
  }

  lemma TakeBatchQueue(ch: Channel)
    requires QueueInv(ch) && ch.state.Ready? && ch.writeQueue != [] && ch.unsent == []
    ensures QueueInv(TakeBatch(ch))
  {
    var batch := ch.writeQueue[0];
    var x := PendingBatch(Some(batch.owner), batch.count, batch.tags);
    PendingTagsAppend(ch.pendingQueue, x);
    PendingCountAppend(ch.pendingQueue, x);
    assert Unanswered(TakeBatch(ch)) == Unanswered(ch) + batch.tags;
  }

  lemma TakeBatchHistory(ch: Channel)
    requires HistoryInv(ch) && ch.state.Ready? && ch.writeQueue != [] && ch.unsent == []
    ensures HistoryInv(TakeBatch(ch))
  {
    var popped, batch := ch.conn.popped, ch.writeQueue[0];
    assert (popped + [batch])[..|popped|] == popped;
    assert ch.conn.carried + [] == ch.conn.carried;
  }

  lemma TransmittedHistory(ch: Channel, k: nat)
    requires HistoryInv(ch) && k <= |ch.unsent|
    ensures HistoryInv(Transmitted(ch, k))
  {
    hide Commands;
    Shift(ch.conn.carried, ch.unsent, k);
  }

  lemma TakeBatchKeeps(ch: Channel, a: Addr)
    requires ChannelInv(ch) && ch.run.BatchTop? && ch.writerSignal.waiter.Running? && ch.state.Ready?
    requires ch.writeQueue != []
    ensures ChannelInv(TakeBatch(ch)) && Owned(TakeBatch(ch), a) == Owned(ch, a)
    ensures forall t :: Orphan(TakeBatch(ch), t) ==> Orphan(ch, t)
  {
    hide QueueInv, Owned, HistoryInv;
    TakeBatchOwned(ch, a);
    TakeBatchQueue(ch);
    TakeBatchHistory(ch);
  }

  lemma PopReplyFront(ch: Channel)
    requires QueueInv(ch) && ch.state.Ready? && ch.redisIn != []
    ensures ch.pendingQueue != [] && ch.pendingQueue[0].tags != []
    ensures ch.pendingQueue[0].tags[0] == ch.redisIn[0]
  {
    assert Unanswered(ch)[0] == ch.redisIn[0];
  }

  function Answered(ch: Channel): Channel
    requires ch.pendingQueue != [] && ch.redisIn != []
  {
    PopReply(ch).(redisIn := ch.redisIn[1..])
  }

  lemma OwnedPendingPop(p: PendingBatch, rest: seq<PendingBatch>, a: Addr)
    requires p.tags != []
    ensures var head := if p.owner == Some(a) then [p.tags[0]] else [];
            OwnedPending([p] + rest, a) == head + OwnedPending([p.(tags := p.tags[1..])] + rest, a)
  {
    assert ([p] + rest)[1..] == rest && ([p.(tags := p.tags[1..])] + rest)[1..] == rest;
    assert p.tags == [p.tags[0]] + p.tags[1..];
  }

  lemma AnsweredOwned(ch: Channel, a: Addr)
    requires BatchesInv(ch) && ch.pendingQueue != [] && ch.redisIn != []
    requires ch.pendingQueue[0].tags[0] == ch.redisIn[0]
    ensures Owned(ch, a) == (if ch.pendingQueue[0].owner == Some(a) then [ch.redisIn[0]] else []) + Owned(Answered(ch), a)
  {
    var p, rest := ch.pendingQueue[0], ch.pendingQueue[1..];
    var head := if p.owner == Some(a) then [ch.redisIn[0]] else [];
    assert ch.pendingQueue == [p] + rest;
    var q' := [p.(tags := p.tags[1..])] + rest;
    OwnedPendingPop(p, rest, a);
    AnsweredOwnedRest(ch, a);
    assert Owned(ch, a) == head + (OwnedPending(q', a) + OwnedWrites(ch.writeQueue, a));
  }

  lemma AnsweredOwnedRest(ch: Channel, a: Addr)
    requires BatchesInv(ch) && ch.pendingQueue != [] && ch.redisIn != []
    ensures var p := ch.pendingQueue[0];
            OwnedPending(Answered(ch).pendingQueue, a) == OwnedPending([p.(tags := p.tags[1..])] + ch.pendingQueue[1..], a)
  {
    var p, rest := ch.pendingQueue[0], ch.pendingQueue[1..];
    assert ([p.(tags := p.tags[1..])] + rest)[1..] == rest;
    if p.remaining > 1 {
      assert Answered(ch).pendingQueue[1..] == rest;
    }
  }

  lemma AnsweredQueue(ch: Channel)
    requires QueueInv(ch) && ch.state.Ready? && ch.redisIn != [] && ch.pendingQueue != []
    ensures QueueInv(Answered(ch))
  {
    var ch' := Answered(ch);
    var p, rest := ch.pendingQueue[0], ch.pendingQueue[1..];
    assert Unanswered(ch') == Unanswered(ch)[1..];
    assert PendingTags(ch.pendingQueue)[1..] == p.tags[1..] + PendingTags(rest);
    if p.remaining > 1 {
      assert ch'.pendingQueue[1..] == rest;
    }
  }

  lemma AnsweredOrphans(ch: Channel, t: Tag)
    requires BatchesInv(ch) && ch.redisIn != [] && ch.pendingQueue != [] && Orphan(Answered(ch), t)
    ensures Orphan(ch, t)
  {
    var q := Answered(ch).pendingQueue;
    var i :| 0 <= i < |q| && q[i].owner.None? && t in q[i].tags;
    var j := if ch.pendingQueue[0].remaining > 1 then i else i + 1;
    assert ch.pendingQueue[j].owner.None? && t in ch.pendingQueue[j].tags;
  }

  lemma Shift(a: seq<Tag>, b: seq<Tag>, k: nat)
    requires k <= |b|
    ensures (a + b[..k]) + b[k..] == a + b
  {
    assert b == b[..k] + b[k..];
  }

  lemma ShiftAfter(x: seq<Tag>, a: seq<Tag>, b: seq<Tag>, k: nat)
    requires k <= |b|
    ensures (x + (a + b[..k])) + b[k..] == (x + a) + b
  {
    Shift(a, b, k);
    assert (x + (a + b[..k])) + b[k..] == x + ((a + b[..k]) + b[k..]);
  }

  /** Moving along the wire does not change what is owed, or in which order. */
  lemma WireOrder(ch: Channel, k: nat)
    ensures k <= |ch.unsent| ==> Unanswered(Transmitted(ch, k)) == Unanswered(ch)
    ensures k <= |ch.atRedis| ==> Unanswered(Replied(ch, k)) == Unanswered(ch)
    ensures k <= |ch.inTransit| ==> forall more :: Unanswered(Received(ch, k, more)) == Unanswered(ch)
  {
    if k <= |ch.unsent| { ShiftAfter(ch.redisIn + ch.inTransit, ch.atRedis, ch.unsent, k); }
    if k <= |ch.atRedis| { ShiftAfter(ch.redisIn, ch.inTransit, ch.atRedis, k); }
    if k <= |ch.inTransit| { Shift(ch.redisIn, ch.inTransit, k); }
  }
}
