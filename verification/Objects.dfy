/**
 The proxy's objects as the source has them: `BackendChannel`, `BackendPool` and `ClientSession`
 change their fields in place and call each other through addresses.  Every method is tied to the
 function of `Channels`, `Sessions` or `Proxy` that says what it does to the whole worker.
 */
module Objects {
  import opened Resp
  import opened Signals
  import opened Framing
  import opened Channels
  import opened Sessions
  import opened Proxy
  import opened OwnerCalls
  import ProxySteps

  // ----- a channel -----

  /** Where a channel's two loops are suspended, what is on the wire, and what this connection has seen. */
  datatype Outside = Outside(
    run: RunPc, reader: ReceivePc, inTransit: seq<Tag>, atRedis: seq<Tag>, unsent: seq<Tag>, conn: Connection)

  class BackendChannel {
    var state: ChannelState
    var stopRequested: bool
    var readerDone: bool
    var writeQueue: seq<RequestBatch>
    var pendingQueue: seq<PendingBatch>
    var queuedCommands: int
    var writerSignal: Signal
    var redisIn: seq<Tag>
    var leftover: bool
    var out: Outside   // not in the source

    ghost function View(): Channel
      reads this
    {
      Channel(state, stopRequested, readerDone, writeQueue, pendingQueue, queuedCommands, writerSignal,
              out.run, out.reader, redisIn, out.inTransit, out.atRedis, out.unsent, leftover, out.conn)
    }

    constructor ()
      ensures View() == NewChannel
    {
      state, stopRequested, readerDone, writeQueue, pendingQueue := Stopped, false, true, [], [];
      queuedCommands, writerSignal, redisIn, leftover := 0, IdleSignal, [], false;
      out := Outside(Idle, NoReader, [], [], [], Connection([], []));
    }

    predicate IsHealthy()
      reads this
    {
      state.Ready?
    }

    /** `submit`: refused by an unhealthy channel, and for an empty batch. */
    method Submit(owner: Addr, frames: seq<Request>, tags: seq<Tag>, count: int) returns (ok: bool)
      modifies this
      ensures ok <==> old(state).Ready? && count != 0
      ensures View() == if ok then Channels.Submit(old(View()), owner, count, tags, frames) else old(View())
    {
      if !IsHealthy() || count == 0 { return false; }
      writeQueue := writeQueue + [RequestBatch(owner, count, tags, frames)];
      queuedCommands := queuedCommands + count;
      writerSignal := writerSignal.Notify();
      return true;
    }

    /** `detachOwner`: batches not started are erased, started ones keep their slots without an owner. */
    method DetachOwner(owner: Addr)
      modifies `writeQueue, `queuedCommands, `pendingQueue
      ensures View() == Detach(old(View()), {owner})
    {
      EraseBatches(owner);
      ForgetOwner(owner);
    }

    method EraseBatches(owner: Addr)
      modifies `writeQueue, `queuedCommands
      ensures writeQueue == Erase(old(writeQueue), {owner})
      ensures queuedCommands == old(queuedCommands) - (WriteCount(old(writeQueue)) - WriteCount(writeQueue))
    {
      hide Erase, WriteCount;
      var i := 0;
      assert writeQueue[0..] == writeQueue;
      while i < |writeQueue|
        invariant i <= |writeQueue|
        invariant writeQueue[..i] + Erase(writeQueue[i..], {owner}) == Erase(old(writeQueue), {owner})
        invariant queuedCommands == old(queuedCommands) - (WriteCount(old(writeQueue)) - WriteCount(writeQueue))
        decreases |writeQueue| - i
      {
        EraseNext(writeQueue, i, owner);
        if writeQueue[i].owner == owner {
          queuedCommands := queuedCommands - writeQueue[i].count;
          writeQueue := writeQueue[..i] + writeQueue[i + 1..];
        } else {
          i := i + 1;
        }
      }
      NoneLeftToErase(owner);
      assert writeQueue[i..] == [] && writeQueue[..i] == writeQueue;
    }

    lemma NoneLeftToErase(owner: Addr)
      ensures Erase([], {owner}) == []
    {
    }

    method ForgetOwner(owner: Addr)
      modifies `pendingQueue
      ensures pendingQueue == DisownAll(old(pendingQueue), {owner})
    {
      var j := 0;
      while j < |pendingQueue|
        invariant j <= |pendingQueue| == |old(pendingQueue)|
        invariant forall k :: 0 <= k < |pendingQueue| ==>
                    pendingQueue[k] == if k < j then Disown(old(pendingQueue)[k], {owner}) else old(pendingQueue)[k]
      {
        if pendingQueue[j].owner == Some(owner) {
          pendingQueue := pendingQueue[j := pendingQueue[j].(owner := None)];
        }
        j := j + 1;
      }
    }

    /** The owners that `failConnection` collects from both queues. */
    method CollectOwners() returns (owners: set<Addr>)
      ensures owners == Owners(View())
    {
      owners := {};
      var i := 0;
      while i < |writeQueue|
        invariant i <= |writeQueue|
        invariant owners == set k | 0 <= k < i :: writeQueue[k].owner
      {
        owners := owners + {writeQueue[i].owner};
        i := i + 1;
      }
      var j := 0;
      ghost var writers := owners;
      while j < |pendingQueue|
        invariant j <= |pendingQueue|
        invariant owners == writers + set k | 0 <= k < j && pendingQueue[k].owner.Some? :: pendingQueue[k].owner.value
      {
        if pendingQueue[j].owner.Some? {
          owners := owners + {pendingQueue[j].owner.value};
        }
        j := j + 1;
      }
    }

    method Discard()
      modifies this
      ensures View() == Clear(old(View()))
    {
      state := Closing;
      writerSignal := writerSignal.Notify();
      writeQueue, pendingQueue, queuedCommands := [], [], 0;
    }

    /** One turn of `writerLoop`. */
    method WriterTurn()
      requires out.run.BatchTop? && writerSignal.waiter.Running?
      modifies this
      ensures View() == RunStep(old(View()))
    {
      if !IsHealthy() {
        out := out.(run := JoinTop);
      } else if writeQueue == [] {
        writerSignal := writerSignal.Wait();
      } else {
        var batch := writeQueue[0];
        writeQueue := writeQueue[1..];
        pendingQueue := pendingQueue + [PendingBatch(Some(batch.owner), batch.count, batch.tags)];
        out := out.(run := Writing, unsent := batch.tags, conn := out.conn.(popped := out.conn.popped + [batch]));
      }
    }

    method Start()
      modifies this
      ensures View() == if old(state).Stopped?
                        then old(View()).(stopRequested := false, state := Connecting, run := RunTop) else old(View())
    {
      if !state.Stopped? { return; }
      stopRequested, state, out := false, Connecting, out.(run := RunTop);
    }

    /** `run`, between two suspensions. */
    method RunTurn()
      requires out.run.RunTop? || out.run.BatchTop? || out.run.JoinTop? || out.run.Backoff?
      requires out.run.BatchTop? ==> writerSignal.waiter.Running?
      modifies this
      ensures View() == RunStep(old(View()))
    {
      if out.run.BatchTop? {
        WriterTurn();
      } else if out.run.JoinTop? {
        if readerDone { Close(); } else { writerSignal := writerSignal.Wait(); }
      } else if stopRequested {
        state, out := Stopped, out.(run := Idle);
      } else {
        state, out := Connecting, out.(run := AtConnect);
      }
    }

    /** `socket_.close()` and `redis_in_.clear()`. */
    method Close()
      modifies this
      ensures View() == Closed(old(View()))
    {
      redisIn, leftover := [], false;
      out := out.(inTransit := [], atRedis := [], unsent := [], run := if stopRequested then RunTop else Backoff);
    }

    /** `connectOnce` has returned. */
    method AfterConnect(ok: bool)
      modifies this
      ensures View() == Connected(old(View()), ok)
    {
      if ok && !stopRequested {
        state, readerDone := Ready, false;
        out := out.(reader := ReceiveTop, run := BatchTop, conn := Connection([], []));
      } else {
        Close();
      }
    }

    /** The top of `readerLoop`. */
    method ReaderTurn()
      modifies this
      ensures View() == if old(state).Ready? then old(View()).(reader := Receiving) else EndReader(old(View()))
    {
      if IsHealthy() {
        out := out.(reader := Receiving);
      } else {
        out, readerDone := out.(reader := NoReader), true;
        writerSignal := writerSignal.Notify();
      }
    }

    method ReadAgain(more: bool)
      modifies `out, `leftover
      ensures View() == old(View()).(reader := ReceiveTop, leftover := old(leftover) || more)
    {
      out, leftover := out.(reader := ReceiveTop), leftover || more;
    }

    method EndBatch()
      modifies `out
      ensures View() == old(View()).(run := BatchTop, unsent := [])
    {
      out := out.(run := BatchTop, unsent := []);
    }

    method Wake()
      modifies `writerSignal
      ensures View() == old(View()).(writerSignal := old(writerSignal).Resume())
    {
      writerSignal := writerSignal.Resume();
    }

    /** `k` replies are complete in `redis_in_`. */
    method Receive(k: nat, more: bool)
      requires k <= |out.inTransit|
      modifies `redisIn, `out, `leftover
      ensures View() == Received(old(View()), k, more)
    {
      redisIn, leftover := redisIn + out.inTransit[..k], more;
      out := out.(inTransit := out.inTransit[k..], reader := Parsing);
    }

    method Send(k: nat)
      requires k <= |out.unsent|
      modifies `out
      ensures View() == Transmitted(old(View()), k)
    {
      out := out.(atRedis := out.atRedis + out.unsent[..k], unsent := out.unsent[k..],
                  conn := out.conn.(carried := out.conn.carried + out.unsent[..k]));
    }

    method Reply(k: nat)
      requires k <= |out.atRedis|
      modifies `out
      ensures View() == Replied(old(View()), k)
    {
      out := out.(inTransit := out.inTransit + out.atRedis[..k], atRedis := out.atRedis[k..]);
    }

    lemma Fields()
      ensures View().state == state && View().run == out.run && View().writerSignal == writerSignal
      ensures View().pendingQueue == pendingQueue && View().redisIn == redisIn
      ensures View().inTransit == out.inTransit && View().atRedis == out.atRedis && View().unsent == out.unsent
      ensures View().leftover == leftover
    {
    }

    /** The front slot of `dispatchReply` is used up; its owner, if any, is to be called. */
    method UseSlot() returns (owner: Option<Addr>)
      requires pendingQueue != [] && redisIn != []
      modifies this
      ensures owner == old(pendingQueue)[0].owner && View() == Answered(old(View()))
    {
      var pending := pendingQueue[0];
      owner := pending.owner;
      pending := pending.(remaining := pending.remaining - 1, tags := if pending.tags == [] then [] else pending.tags[1..]);
      pendingQueue := if pending.remaining == 0 then pendingQueue[1..] else [pending] + pendingQueue[1..];
      queuedCommands := queuedCommands - 1;
      redisIn := redisIn[1..];
    }
  }

  /** What one turn of the erasing loop does to what is left to do. */
  lemma EraseNext(q: seq<RequestBatch>, i: nat, owner: Addr)
    requires i < |q|
    ensures q[i].owner == owner ==>
              (q[..i] + q[i + 1..])[..i] == q[..i] && (q[..i] + q[i + 1..])[i..] == q[i + 1..]
              && Erase(q[i..], {owner}) == Erase(q[i + 1..], {owner})
    ensures q[i].owner != owner ==> q[..i] + Erase(q[i..], {owner}) == q[..i + 1] + Erase(q[i + 1..], {owner})
    ensures WriteCount(q[..i] + q[i + 1..]) == WriteCount(q) - q[i].count
  {
    assert q[i..][0] == q[i] && q[i..][1..] == q[i + 1..];
    assert q[..i + 1] == q[..i] + [q[i]];
    CountWithout(q, i);
  }

  lemma {:induction false} CountWithout(q: seq<RequestBatch>, i: nat)
    requires i < |q|
    ensures WriteCount(q[..i] + q[i + 1..]) == WriteCount(q) - q[i].count
  {
    if i == 0 {
      assert q[..0] + q[1..] == q[1..];
    } else {
      CountWithout(q[1..], i - 1);
      assert (q[..i] + q[i + 1..])[1..] == q[1..][..i - 1] + q[1..][i..];
    }
  }

  // ----- a session -----

  /** Where a session's two loops are, and its history. */
  datatype Past = Past(
    inc: nat, reader: ReaderPc, writer: WriterPc, received: Bytes, eof: bool, requests: seq<Request>,
    queued: seq<Reply>, handed: seq<Reply>, failures: nat, finishes: nat)

  class ClientSession {
    var state: SessionState
    var pendingReplies: int
    var currentBackend: Option<nat>
    var clientIn: Bytes
    var clientOut: seq<Reply>
    var finalError: string
    var activeLoops: int
    var outputSignal: Signal
    var replySignal: Signal
    var past: Past   // not in the source: names its requests and keeps its history

    ghost function View(): Session
      reads this
    {
      Session(past.inc, state, pendingReplies, currentBackend, clientIn, clientOut, finalError, activeLoops,
              outputSignal, replySignal, past.reader, past.writer, past.received, past.eof, past.requests,
              past.queued, past.handed, past.failures, past.finishes)
    }

    constructor (inc: nat)
      ensures View() == NewSession(inc)
    {
      state, pendingReplies, currentBackend, clientIn, clientOut := Open, 0, None, [], [];
      finalError, activeLoops, outputSignal, replySignal := "", 2, IdleSignal, IdleSignal;
      past := Past(inc, ReaderTop, WriterTop, [], false, [], [], [], 0, 0);
    }

    method OnBackendReply(t: Tag)
      modifies this
      ensures View() == Sessions.OnBackendReply(old(View()), t)
    {
      pendingReplies := pendingReplies - 1;
      if pendingReplies == 0 {
        currentBackend := None;
        replySignal := replySignal.Notify();
      }
      clientOut := clientOut + [FromBackend(t)];
      outputSignal := outputSignal.Notify();
      past := past.(queued := past.queued + [FromBackend(t)]);
    }

    /** What `abort` does to the session itself. */
    method CloseDown()
      modifies this
      ensures View() == AbortSession(old(View()))
    {
      state, currentBackend, pendingReplies, clientOut := Aborted, None, 0, [];
      outputSignal := outputSignal.Notify();
      replySignal := replySignal.Notify();
    }

    method Drain(error: string)
      modifies this
      ensures View() == Sessions.Drain(old(View()), error)
    {
      past := past.(reader := ReaderTop);
      if !state.Open? { return; }
      state, finalError := Draining, error;
      outputSignal := outputSignal.Notify();
      past := past.(requests := past.requests + (if error == "" then [] else [Fatal(error)]));
    }

    /** One turn of the wait before a rejection is answered. */
    method AwaitTurn()
      requires past.reader.Awaiting?
      modifies this
      ensures View() == AwaitReplies(old(View()))
    {
      if state.Open? && pendingReplies != 0 {
        replySignal := replySignal.Wait();
        return;
      }
      if state.Open? {
        var reply := ErrorReply(past.reader.message);
        clientOut := clientOut + [reply];
        outputSignal := outputSignal.Notify();
        past := past.(queued := past.queued + [reply]);
      }
      past := past.(reader := ReaderTop);
    }

    method Feed(data: Bytes)
      modifies this
      ensures View() == Sessions.Feed(old(View()), data)
    {
      if state.Open? {
        clientIn := clientIn + data;
        past := past.(received := past.received + data);
      }
      past := past.(reader := ReaderTop);
    }

    method HangUp()
      modifies this
      ensures View() == Sessions.HangUp(old(View()))
    {
      if state.Open? {
        past := past.(eof := true);
        Drain(if clientIn == [] then "" else PROTOCOL_ERROR);
      } else {
        past := past.(reader := ReaderTop);
      }
    }

    /** `client_in_` loses its first `n` bytes. */
    method CutInput(n: nat)
      requires n <= |clientIn|
      modifies `clientIn
      ensures View() == old(View()).(clientIn := old(clientIn)[n..])
    {
      clientIn := clientIn[n..];
    }

    /** The session is bound to the channel that took its batch. */
    method Bind(channel: nat, rs: seq<Request>)
      modifies `currentBackend, `pendingReplies, `past
      ensures var s := old(View());
              View() == s.(currentBackend := Some(channel), pendingReplies := s.pendingReplies + |rs|, requests := s.requests + rs)
    {
      currentBackend, pendingReplies := Some(channel), pendingReplies + |rs|;
      past := past.(requests := past.requests + rs);
    }

    /** The rest of a reader turn: an error ends the input or waits for its turn, else more input is awaited. */
    method AfterScan(stop: Stop)
      requires past.reader.ReaderTop? && (stop.Refused? ==> |stop.frame| <= |clientIn|)
      modifies this
      ensures View() == Proxy.AfterScan(old(View()), stop)
    {
      match stop
      case Broken =>
        Drain(PROTOCOL_ERROR);
      case Refused(frame, message) =>
        clientIn := clientIn[|frame|..];
        past := past.(requests := past.requests + [Reject(frame, message)], reader := Awaiting(message));
      case OutOfBudget =>
        if clientIn == [] { past := past.(reader := Reading); }
      case Starved =>
        past := past.(reader := Reading);
    }

    /** One turn of `writerLoop` that does not leave it: up to 64 replies go out together. */
    method WriterTurn() returns (batch: seq<Reply>)
      requires past.writer.WriterTop? && outputSignal.waiter.Running? && !WriterDone(View())
      modifies this
      ensures View() == WriteTurn(old(View()))
      ensures past.handed == old(past.handed) + batch && |batch| <= OUTPUT_BATCH
    {
      batch := [];
      if clientOut == [] {
        if state.Draining? && pendingReplies == 0 {
          clientOut := [ErrorReply(finalError)];
          past := past.(queued := past.queued + [ErrorReply(finalError)]);
          finalError := "";
        } else {
          outputSignal := outputSignal.Wait();
          return;
        }
      }
      batch := TakeReplies();
      past := past.(handed := past.handed + batch, writer := Sending);
    }

    method TakeReplies() returns (batch: seq<Reply>)
      requires clientOut != []
      modifies `clientOut
      ensures var n := Min(OUTPUT_BATCH, |old(clientOut)|); batch == old(clientOut)[..n] && clientOut == old(clientOut)[n..]
    {
      batch, clientOut := [clientOut[0]], clientOut[1..];
      var count := 1;
      while count < OUTPUT_BATCH && clientOut != []
        invariant count == |batch| <= OUTPUT_BATCH && batch + clientOut == old(clientOut)
        decreases |clientOut|
      {
        batch, clientOut := batch + [clientOut[0]], clientOut[1..];
        count := count + 1;
      }
      assert (batch + clientOut)[..|batch|] == batch && (batch + clientOut)[|batch|..] == clientOut;
    }
  }

  // ----- the worker -----

  /** The pool's channels, and the sessions by address: following an address is looking it up here. */
  class ProxyWorker {
    const channels: seq<BackendChannel>
    var sessions: map<Addr, ClientSession>
    var finished: seq<Addr>
    var nextInc: nat
    ghost var fate: map<Tag, Fate>

    /** `BackendPool`'s constructor: `n` stopped channels, and no session yet. */
    constructor (n: nat)
      requires 0 < n
      ensures Valid() && Init(View()) && |channels| == n
    {
      var q := MakeChannels(n);
      channels, sessions, finished, nextInc, fate := q, map[], [], 0, map[];
    }

    static method MakeChannels(n: nat) returns (q: seq<BackendChannel>)
      ensures |q| == n && (forall i, j :: 0 <= i < j < n ==> q[i] != q[j])
      ensures forall i :: 0 <= i < n ==> q[i].View() == NewChannel
    {
      q := [];
      while |q| < n
        invariant |q| <= n && (forall i, j :: 0 <= i < j < |q| ==> q[i] != q[j])
        invariant forall i :: 0 <= i < |q| ==> q[i].View() == NewChannel
        decreases n - |q|
      {
        var channel := new BackendChannel();
        q := q + [channel];
      }
    }

    /** No two channels, and no two sessions, are one object. */
    ghost predicate Valid()
      reads `sessions
    {
      && (forall i, j :: 0 <= i < j < |channels| ==> channels[i] != channels[j])
      && (forall a, b :: a in sessions && b in sessions && a != b ==> sessions[a] != sessions[b])
    }

    ghost function ChannelViews(): (r: seq<Channel>)
      reads channels
      ensures |r| == |channels| && forall c :: 0 <= c < |channels| ==> r[c] == channels[c].View()
    {
      seq(|channels|, c requires 0 <= c < |channels| reads channels => channels[c].View())
    }

    ghost function SessionViews(): (r: map<Addr, Session>)
      reads `sessions, sessions.Values
      ensures r.Keys == sessions.Keys && forall a :: a in sessions ==> r[a] == sessions[a].View()
    {
      map a | a in sessions :: sessions[a].View()
    }

    ghost function View(): World
      reads this, channels, sessions.Values
    {
      World(ChannelViews(), SessionViews(), finished, nextInc, fate)
    }

    /** Only one session has changed. */
    twostate lemma OneSession(new a: Addr)
      requires Valid() && a in sessions && unchanged(`sessions) && unchanged(`finished) && unchanged(`nextInc)
      requires unchanged(channels) && forall b :: b in sessions && b != a ==> unchanged(sessions[b])
      ensures View() == old(View()).(sessions := old(View()).sessions[a := sessions[a].View()], fate := fate)
    {
      assert ChannelViews() == old(ChannelViews());
      assert SessionViews() == old(SessionViews())[a := sessions[a].View()];
    }

    /** Only one channel has changed. */
    twostate lemma OneChannel(new c: nat)
      requires Valid() && c < |channels| && unchanged(`sessions) && unchanged(`finished) && unchanged(`nextInc)
      requires unchanged(sessions.Values) && forall k :: 0 <= k < |channels| && k != c ==> unchanged(channels[k])
      ensures View() == old(View()).(channels := old(View()).channels[c := channels[c].View()], fate := fate)
    {
      assert ChannelViews() == old(ChannelViews())[c := channels[c].View()];
      assert SessionViews() == old(SessionViews());
    }

    twostate lemma JustSession(new a: Addr)
      requires Valid() && a in sessions && unchanged(this)
      requires unchanged(channels) && forall b :: b in sessions && b != a ==> unchanged(sessions[b])
      ensures View() == SetSession(old(View()), a, sessions[a].View())
    {
      hide ChannelViews, SessionViews;
      OneSession(a);
    }

    twostate lemma JustChannel(new c: nat)
      requires Valid() && c < |channels| && unchanged(this)
      requires unchanged(sessions.Values) && forall k :: 0 <= k < |channels| && k != c ==> unchanged(channels[k])
      ensures c < |old(View()).channels| && View() == SetChannel(old(View()), c, channels[c].View())
    {
      hide SessionViews;
      OneChannel(c);
    }

    lemma Keys()
      ensures View().sessions.Keys == sessions.Keys && |View().channels| == |channels|
    {
    }

    lemma At(a: Addr)
      requires a in sessions
      ensures a in View().sessions && View().sessions[a] == sessions[a].View() && View().fate == fate
    {
    }

    /** `BackendPool::detachOwner`. */
    method DetachOwner(a: Addr)
      requires Valid()
      modifies channels`writeQueue, channels`queuedCommands, channels`pendingQueue
      ensures ChannelViews() == DetachAll(old(ChannelViews()), {a})
    {
      hide Detach, BackendChannel.View;
      var c := 0;
      while c < |channels|
        invariant c <= |channels|
        invariant forall k :: 0 <= k < |channels| ==>
                    channels[k].View() == if k < c then Detach(old(channels[k].View()), {a}) else old(channels[k].View())
      {
        channels[c].DetachOwner(a);
        c := c + 1;
      }
    }

    /** `BackendPool::select`: a pinned session keeps its channel; another gets the least-loaded healthy one. */
    method Select(current: Option<nat>) returns (r: Option<nat>)
      requires current.Some? ==> current.value < |channels|
      ensures r == Proxy.Select(ChannelViews(), current)
    {
      if current.Some? {
        return if channels[current.value].IsHealthy() then current else None;
      }
      r := None;
      var c := 0;
      while c < |channels|
        invariant c <= |channels| && r == LeastLoaded(ChannelViews(), c)
      {
        if channels[c].IsHealthy() && (r.None? || channels[c].queuedCommands < channels[r.value].queuedCommands) {
          r := Some(c);
        }
        c := c + 1;
      }
    }

    /** `ClientSession::abort`. */
    method Abort(a: Addr)
      requires Valid() && a in sessions
      modifies `fate, channels`writeQueue, channels`queuedCommands, channels`pendingQueue, sessions[a]
      ensures View() == Proxy.Abort(old(View()), {a})
    {
      hide View, Proxy.Abort, AbortSession, DetachAll, OwnedBy, Settle, BackendChannel.View;
      At(a);
      if sessions[a].state.Aborted? {
        AbortedAlready(View(), a);
        return;
      }
      AbortOne(View(), a);
      Detached(a);
      At(a);
      label Left:
      sessions[a].CloseDown();
      OneSession@Left(a);
    }

    /** `detachOwner` on behalf of a session that is going: its commands are dropped. */
    method Detached(a: Addr)
      requires Valid()
      modifies `fate, channels`writeQueue, channels`queuedCommands, channels`pendingQueue
      ensures var w := old(View());
              View() == w.(channels := DetachAll(w.channels, {a}), fate := Settle(w.fate, OwnedBy(w.channels, {a}), Discarded))
    {
      hide View, ChannelViews, DetachAll, OwnedBy, Settle;
      Parts();
      fate := Settle(fate, OwnedBy(ChannelViews(), {a}), Discarded);
      DetachOwner(a);
      AllChannels();
    }

    lemma Parts()
      ensures View() == World(ChannelViews(), SessionViews(), finished, nextInc, fate)
    {
    }

    twostate lemma AllChannels()
      requires unchanged(`sessions) && unchanged(`finished) && unchanged(`nextInc) && unchanged(sessions.Values)
      ensures View() == old(View()).(channels := ChannelViews(), fate := fate)
    {
      assert SessionViews() == old(SessionViews());
    }

    method OnBackendFailure(a: Addr)
      requires Valid() && a in sessions
      modifies `fate, channels`writeQueue, channels`queuedCommands, channels`pendingQueue, sessions[a]
      ensures View() == Tell(old(View()), {a})
    {
      hide View, Proxy.Abort;
      At(a);
      sessions[a].past := sessions[a].past.(failures := sessions[a].past.failures + 1);
      OneSession(a);
      NoteOne(old(View()).sessions, a);
      Abort(a);
    }

    /** `failConnection`: the queues are emptied first, then each distinct owner is told, in some order. */
    method FailConnection(c: nat)
      requires Valid() && c < |channels| && Owners(channels[c].View()) <= sessions.Keys
      modifies `fate, channels, sessions.Values
      ensures View() == Proxy.FailConnection(old(View()), c)
      ensures unchanged(`sessions)
    {
      hide View, BackendChannel.View, ClientSession.View, Proxy.Abort, Tell, Emptied;
      ghost var w := View();
      Healthy(c);
      if !channels[c].IsHealthy() { return; }
      var owners := Empty(c);
      ghost var start := View();
      ghost var told: set<Addr> := {};
      ghost var all := owners;
      TellNobody(start);
      while owners != {}
        invariant View() == Tell(start, told) && unchanged(`sessions)
        invariant told !! owners && told + owners == all <= sessions.Keys
      {
        var a :| a in owners;
        owners := owners - {a};
        OnBackendFailure(a);
        TellOneMore(start, told, a);
        told := told + {a};
      }
      FailureIsTelling(w, c);
    }

    /** The part of `failConnection` before the callbacks. */
    method Empty(c: nat) returns (owners: set<Addr>)
      requires Valid() && c < |channels| && channels[c].state.Ready?
      modifies `fate, channels[c]
      ensures owners == Owners(old(channels[c].View())) && View() == Emptied(old(View()), c)
    {
      hide View, Owners, OwnedBy, Settle, Clear, BackendChannel.View;
      Healthy(c);
      var ch := channels[c];
      fate := Settle(fate, OwnedBy([ch.View()], Owners(ch.View())), Failed);
      owners := ch.CollectOwners();
      ch.Discard();
      OneChannel(c);
    }

    lemma Healthy(c: nat)
      requires c < |channels|
      ensures |View().channels| == |channels| && View().channels[c] == channels[c].View()
      ensures View().channels[c].state == channels[c].state && View().fate == fate
    {
    }

    /** `dispatchReply`: the oldest slot gets the reply; without a slot the connection fails. */
    method DispatchReply(c: nat)
      requires Valid() && c < |channels| && channels[c].redisIn != [] && Owners(channels[c].View()) <= sessions.Keys
      modifies `fate, channels, sessions.Values
      ensures View() == Dispatch(old(View()), c) && unchanged(`sessions)
    {
      hide View, Proxy.FailConnection, Answered, Sessions.OnBackendReply, ClientSession.View;
      Healthy(c);
      var ch := channels[c];
      if ch.pendingQueue == [] {
        ch.redisIn := ch.redisIn[1..];
        OneChannel(c);
        FailConnection(c);
      } else {
        var t := ch.redisIn[0];
        var owner := ch.UseSlot();
        OneChannel(c);
        if owner.Some? {
          assert owner.value in Owners(old(ch.View()));
          Answer(owner.value, t);
        }
      }
    }

    /** `onBackendReply`, through the owner's address. */
    method Answer(a: Addr, t: Tag)
      requires Valid() && a in sessions
      modifies `fate, sessions[a]
      ensures a in old(View()).sessions
      ensures View() == SetSession(old(View()), a, OnBackendReply(old(View()).sessions[a], t)).(fate := old(View()).fate[t := Delivered])
    {
      hide View, Sessions.OnBackendReply, ClientSession.View;
      At(a);
      fate := fate[t := Delivered];
      sessions[a].OnBackendReply(t);
      OneSession(a);
    }

    /** `finishLoop`: the second loop to exit detaches the session and reports it finished. */
    method FinishLoop(a: Addr)
      requires Valid() && a in sessions
      modifies `fate, `finished, channels`writeQueue, channels`queuedCommands, channels`pendingQueue, sessions[a]
      ensures View() == Proxy.FinishLoop(old(View()), a, old(sessions[a].View()))
    {
      hide View, DetachAll, OwnedBy, Settle, BackendChannel.View;
      At(a);
      var s := sessions[a];
      s.activeLoops := s.activeLoops - 1;
      s.past := s.past.(finishes := s.past.finishes + (if s.activeLoops == 0 then 1 else 0));
      OneSession(a);
      if s.activeLoops != 0 { return; }
      Detached(a);
      label Left:
      finished := finished + [a];
      FinishedMore@Left();
    }

    /** `BackendPool::submit`. */
    method SubmitTo(a: Addr, current: Option<nat>, frames: seq<Request>, tags: seq<Tag>, count: int) returns (r: Option<nat>)
      requires Valid() && count != 0 && (current.Some? ==> current.value < |channels|)
      modifies `fate, channels
      ensures r == Proxy.Select(old(View()).channels, current)
      ensures var w := old(View());
              View() == if r.None? then w
                        else w.(channels := w.channels[r.value := Channels.Submit(w.channels[r.value], a, count, tags, frames)],
                                fate := Settle(w.fate, TagSet(tags), Outstanding))
    {
      hide View, Settle, Channels.Submit, BackendChannel.View;
      r := Select(current);
      Chosen(r);
      if r.Some? {
        Healthy(r.value);
        var _ := channels[r.value].Submit(a, frames, tags, count);
        fate := Settle(fate, TagSet(tags), Outstanding);
        OneChannel(r.value);
      }
    }

    /**
     `submitBatch` with `client_in_.slicePrefix`: the accepted frames leave the input for the selected
     channel; without one the session is aborted.
     */
    method SubmitBatch(a: Addr, rs: seq<Request>, tags: seq<Tag>) returns (ok: bool)
      requires Valid() && a in sessions && rs != []
      requires |FrameBytes(rs)| <= |sessions[a].clientIn|
      requires sessions[a].currentBackend.Some? ==> sessions[a].currentBackend.value < |channels|
      requires tags == Range(sessions[a].past.inc, |sessions[a].past.requests|, |rs|)
      modifies `fate, channels, sessions[a]
      ensures a in old(View()).sessions && old(View()).sessions[a] == old(sessions[a].View())
      ensures Submitted(old(View()), a, rs, ok, View())
      ensures ok ==> sessions[a].past.reader == old(sessions[a].past.reader)
                     && sessions[a].clientIn == old(sessions[a].clientIn)[|FrameBytes(rs)|..]
    {
      hide View, FrameBytes, Settle, Channels.Submit, Proxy.Abort, ClientSession.View, BackendChannel.View;
      hide Submitted, Proxy.Select, Range, TagSet;
      At(a);
      var s, n := sessions[a], |FrameBytes(rs)|;
      FieldsOf(s);
      s.CutInput(n);
      OneSession(a);
      At(a);
      var channel := SubmitTo(a, s.currentBackend, rs, tags, |rs|);
      if channel.None? {
        TurnedAway(old(View()), a, rs);
        Abort(a);
        return false;
      }
      TakenOn(old(View()), a, rs, channel.value);
      At(a);
      label Queued:
      s.Bind(channel.value, rs);
      FieldsOf(s);
      OneSession@Queued(a);
      return true;
    }

    lemma FieldsOf(s: ClientSession)
      ensures s.View().currentBackend == s.currentBackend && s.View().clientIn == s.clientIn && s.View().state == s.state
      ensures s.View().inc == s.past.inc && s.View().requests == s.past.requests 
      ensures s.View().reader == s.past.reader && s.View().writer == s.past.writer
    {
    }

    /** One turn of `ClientSession::readerLoop`, from the scan to the next suspension. */
    method ReaderTurn(cfg: Config, a: Addr)
      requires Valid() && a in sessions && sessions[a].past.reader.ReaderTop? && sessions[a].state.Open?
      requires sessions[a].currentBackend.Some? ==> sessions[a].currentBackend.value < |channels|
      modifies `fate, channels, sessions[a]
      ensures a in old(View()).sessions && old(View()).sessions[a] == old(sessions[a].View())
      ensures View() == Proxy.ReaderTurn(cfg, old(View()), a)
    {
      hide View, FrameBytes, Scan, Proxy.SubmitBatch, Proxy.Abort, Proxy.AfterScan, ClientSession.View, BackendChannel.View;
      At(a);
      var s := sessions[a];
      FieldsOf(s);
      var (rs, stop) := Scan(cfg, s.clientIn, cfg.pipeline);
      ScanFits(cfg, s.clientIn, cfg.pipeline);
      if rs != [] {
        var tags := Range(s.past.inc, |s.past.requests|, |rs|);
        var ok := SubmitBatch(a, rs, tags);
        if !ok { return; }
        At(a);
      }
      label Scanned:
      s.AfterScan(stop);
      OneSession@Scanned(a);
    }

    /** What the selection says of the channels. */
    lemma Chosen(chosen: Option<nat>)
      requires exists current :: chosen == Proxy.Select(ChannelViews(), current)
      ensures chosen.Some? ==> chosen.value < |channels| && channels[chosen.value].state.Ready?
      ensures ChannelViews() == View().channels
    {
      ProxySteps.LeastLoadedReady(ChannelViews(), |channels|);
    }

    twostate lemma FinishedMore()
      requires unchanged(`sessions) && unchanged(`nextInc) && unchanged(`fate)
      requires unchanged(channels) && unchanged(sessions.Values)
      ensures View() == old(View()).(finished := finished) && old(View()).finished == old(finished)
    {
      assert ChannelViews() == old(ChannelViews());
      assert SessionViews() == old(SessionViews());
    }
  }

  lemma NoteOne(sessions: map<Addr, Session>, a: Addr)
    requires a in sessions
    ensures Noted(sessions, {a}) == sessions[a := sessions[a].(failures := sessions[a].failures + 1)]
  {
  }

  /** The two outcomes of handing a batch to the pool. */
  ghost predicate Submitted(w: World, a: Addr, rs: seq<Request>, ok: bool, w': World)
    requires a in w.sessions && |FrameBytes(rs)| <= |w.sessions[a].clientIn|
  {
    var s := w.sessions[a];
    match Proxy.Select(w.channels, s.currentBackend)
    case Some(c) => ok && w' == Proxy.SubmitBatch(w, a, c, rs)
    case None => !ok && var gone := Proxy.Abort(w, {a});
                 w' == SetSession(gone, a, gone.sessions[a].(clientIn := s.clientIn[|FrameBytes(rs)|..]))
  }

  lemma TurnedAway(w: World, a: Addr, rs: seq<Request>)
    requires a in w.sessions && |FrameBytes(rs)| <= |w.sessions[a].clientIn|
    requires Proxy.Select(w.channels, w.sessions[a].currentBackend).None?
    ensures var cut := w.sessions[a].(clientIn := w.sessions[a].clientIn[|FrameBytes(rs)|..]);
            Submitted(w, a, rs, false, Proxy.Abort(SetSession(w, a, cut), {a}))
  {
    hide Proxy.Abort, FrameBytes;
    SlicedAbort(w, a, |FrameBytes(rs)|);
  }

  lemma TakenOn(w: World, a: Addr, rs: seq<Request>, c: nat)
    requires a in w.sessions && |FrameBytes(rs)| <= |w.sessions[a].clientIn|
    requires Proxy.Select(w.channels, w.sessions[a].currentBackend) == Some(c)
    ensures var s := w.sessions[a];
            var cut := s.(clientIn := s.clientIn[|FrameBytes(rs)|..]);
            var bound := cut.(currentBackend := Some(c), pendingReplies := s.pendingReplies + |rs|, requests := s.requests + rs);
            var tags := Range(s.inc, |s.requests|, |rs|);
            var sent := w.channels[c := Channels.Submit(w.channels[c], a, |rs|, tags, rs)];
            Submitted(w, a, rs, true,
                      SetSession(SetSession(w, a, cut).(channels := sent, fate := Settle(w.fate, TagSet(tags), Outstanding)), a, bound))
  {
    hide FrameBytes, Range, Settle, Channels.Submit, Proxy.Select;
  }

  lemma SlicedAbort(w: World, a: Addr, n: nat)
    requires a in w.sessions && n <= |w.sessions[a].clientIn|
    ensures var left := w.sessions[a].clientIn[n..];
            Proxy.Abort(SetSession(w, a, w.sessions[a].(clientIn := left)), {a})
            == SetSession(Proxy.Abort(w, {a}), a, Proxy.Abort(w, {a}).sessions[a].(clientIn := left))
  {
    hide DetachAll, OwnedBy, Settle;
    var cut := SetSession(w, a, w.sessions[a].(clientIn := w.sessions[a].clientIn[n..]));
    if w.sessions[a].state.Aborted? {
      AbortedAlready(w, a);
      AbortedAlready(cut, a);
    } else {
      AbortOne(w, a);
      AbortOne(cut, a);
    }
  }

  lemma ScanFits(cfg: Config, s: Bytes, budget: nat)
    ensures var (rs, stop) := Scan(cfg, s, budget);
            |FrameBytes(rs)| + (if stop.Refused? then |stop.frame| else 0) <= |s| && (rs == [] ==> FrameBytes(rs) == [])
  {
    hide Scan, Peek, Judged;
    ScanSound(cfg, s, budget);
  }

  lemma AbortOne(w: World, a: Addr)
    requires a in w.sessions && !w.sessions[a].state.Aborted?
    ensures Proxy.Abort(w, {a}) == w.(channels := DetachAll(w.channels, {a}), sessions := w.sessions[a := AbortSession(w.sessions[a])],
                                      fate := Settle(w.fate, OwnedBy(w.channels, {a}), Discarded))
  {
    hide AbortSession, DetachAll, OwnedBy, Settle;
    assert Live(w, {a}) == {a};
  }

  lemma AbortedAlready(w: World, a: Addr)
    requires a in w.sessions && w.sessions[a].state.Aborted?
    ensures Proxy.Abort(w, {a}) == w
  {
    assert Live(w, {a}) == {} == Live(w, {});
    TellNobody(w);
    assert Noted(w.sessions, {}) == w.sessions;
  }
}
