/**
 What one connection to Redis carries, over whole runs: the batches of the write queue, whole and in
 the order they were taken off it, each of them request for request what its session asked for.
 */
module Connections {
  import opened Resp
  import opened Signals
  import opened Framing
  import opened Channels
  import opened Sessions
  import opened Proxy
  import opened ProxyInv
  import opened ProxySteps
  import opened ProxyFrames
  import Theorems

  // ----- whole batches, in order -----

  /**
   On every run, what a connection has carried so far and what is left of the batch being written are,
   in order, the batches taken off the write queue; and when it is lost, all of them but the last
   have gone out whole, and of the last a prefix of its commands.
   */
  lemma WholeBatchesInOrder(cfg: Config, ws: seq<World>, es: seq<Event>, n: nat, c: nat)
    requires cfg.Valid() && Run(cfg, ws, es) && n < |ws| && c < |ws[n].channels|
    ensures var ch, h := ws[n].channels[c], ws[n].channels[c].conn;
            && (ch.state.Ready? ==> h.carried + ch.unsent == Commands(h.popped))
            && h.carried <= Commands(h.popped)
            && (h.popped != [] ==> Commands(h.popped[..|h.popped| - 1]) <= h.carried)
  {
    hide Run, Inv, Commands;
    RunInv(cfg, ws, es, n);
    LocalChannel(cfg, ws[n], c);
  }

  /** The history of a channel goes on by one of three ways. */
  ghost predicate Moves(w: World, e: Event, w': World, c: nat)
    requires c < |w.channels| && c < |w'.channels|
  {
    var ch, ch' := w.channels[c], w'.channels[c];
    || (Onward(ch.conn, ch'.conn) && e != ConnectReturns(c, true))
    || (e == RunContinues(c) && ch.state.Ready? && ch.writeQueue != [] && ch'.writeQueue == ch.writeQueue[1..]
        && ch'.conn == ch.conn.(popped := ch.conn.popped + [ch.writeQueue[0]]))
    || (e == ConnectReturns(c, true) && (ch'.conn == Connection([], []) || ch'.conn == ch.conn))
  }

  lemma OtherMoves(w: World, e: Event, c: nat)
    requires Enabled(w, e) && c < |w.channels| && (e.Start? || e.RunContinues? || e.ConnectReturns?)
    ensures |StepChannel(w, e).channels| == |w.channels| && Moves(w, e, StepChannel(w, e), c)
  {
    hide FailConnection, Dispatch;
  }

  /**
   On every run, a connection's batches change only by the head of the write queue being taken, and
   start afresh only with a new connection; what has gone out is never taken back.
   */
  lemma BatchesLeaveInOrder(cfg: Config, ws: seq<World>, es: seq<Event>, n: nat, c: nat)
    requires cfg.Valid() && Run(cfg, ws, es) && n < |es| && c < |ws[n].channels|
    ensures |ws[n + 1].channels| == |ws[n].channels| && Moves(ws[n], es[n], ws[n + 1], c)
  {
    hide Inv, StepSession, StepChannel, Enabled;
    RunInv(cfg, ws, es, n);
    var w, e := ws[n], es[n];
    if e.Start? || e.RunContinues? || e.ConnectReturns? {
      OtherMoves(w, e, c);
    } else if !(e.ClientArrives? || e.Reap?) {
      StepFrame(cfg, w, e);
    }
  }

  // ----- where batches come from -----

  /** The batch is, request for request, a stretch of what its owner has asked for. */
  ghost predicate Origin(w: World, b: RequestBatch) {
    && b.owner in w.sessions && |b.frames| == |b.tags| == b.count
    && var s := w.sessions[b.owner];
       forall k :: 0 <= k < |b.tags| ==>
         && b.tags[k] == Tag(s.inc, b.tags[0].index + k) && b.tags[k].index < |s.requests|
         && b.frames[k] == s.requests[b.tags[k].index] && b.frames[k].Accept?
  }

  /** No write queue holds a batch that it did not hold before. */
  ghost predicate NothingNew(w: World, w': World) {
    |w'.channels| == |w.channels|
    && forall c, b :: 0 <= c < |w.channels| && b in w'.channels[c].writeQueue ==> b in w.channels[c].writeQueue
  }

  lemma NothingNewTwice(w: World, w': World, w'': World)
    requires NothingNew(w, w') && NothingNew(w', w'')
    ensures NothingNew(w, w'')
  {
  }

  lemma SessionsOnly(w: World, w': World)
    requires w'.channels == w.channels
    ensures NothingNew(w, w')
  {
  }

  lemma QueueShrinks(w: World, c: nat, ch: Channel)
    requires c < |w.channels| && forall b :: b in ch.writeQueue ==> b in w.channels[c].writeQueue
    ensures NothingNew(w, SetChannel(w, c, ch))
  {
  }

  lemma DetachingAddsNothing(w: World, w': World, s: set<Addr>)
    requires w'.channels == DetachAll(w.channels, s)
    ensures NothingNew(w, w')
  {
    forall c, b | 0 <= c < |w.channels| && b in w'.channels[c].writeQueue ensures b in w.channels[c].writeQueue {
      EraseKeeps(w.channels[c].writeQueue, s, 0);
    }
  }

  lemma FailingAddsNothing(w: World, c: nat)
    requires c < |w.channels|
    ensures NothingNew(w, FailConnection(w, c))
  {
    hide Abort, DetachAll, Owners, OwnedBy;
    if w.channels[c].state.Ready? {
      var lost := LoseConnection(w, c);
      assert NothingNew(w, lost);
      AbortAddsNothing(lost, Owners(w.channels[c]));
      NothingNewTwice(w, lost, FailConnection(w, c));
    }
  }

  lemma AbortAddsNothing(w: World, s: set<Addr>)
    ensures NothingNew(w, Abort(w, s))
  {
    hide NothingNew, DetachAll;
    DetachingAddsNothing(w, Abort(w, s), Live(w, s));
  }

  lemma DispatchAddsNothing(w: World, c: nat)
    requires c < |w.channels| && w.channels[c].redisIn != []
    ensures NothingNew(w, Dispatch(w, c))
  {
    hide FailConnection;
    var ch := w.channels[c];
    if ch.pendingQueue == [] {
      var w1 := SetChannel(w, c, ch.(redisIn := ch.redisIn[1..]));
      FailingAddsNothing(w1, c);
    }
  }

  lemma ChannelAddsNothing(w: World, e: Event)
    requires Enabled(w, e)
    requires !(e.ClientArrives? || e.Reap? || e.ReaderRuns? || e.ReadReturns? || e.ReaderWakes?
               || e.WriterRuns? || e.WriteReturns? || e.WriterWakes?)
    ensures NothingNew(w, StepChannel(w, e))
  {
    hide FailConnection, Dispatch, NothingNew;
    var c, ch := e.c, w.channels[e.c];
    SessionsOnly(w, w);
    match e {
      case Stop(_) =>
        var w1 := SetChannel(w, c, ch.(stopRequested := true));
        QueueShrinks(w, c, ch.(stopRequested := true));
        FailThenSame(w, w1, c, (x: Channel) => x.(writerSignal := x.writerSignal.Notify()));
      case BatchReturns(_, ok) =>
        if ok { QueueShrinks(w, c, ch.(run := BatchTop, unsent := [])); }
        else { FailThenSame(w, w, c, (x: Channel) => x.(run := BatchTop, unsent := [])); }
      case ReceiveReturns(_, replies, more) =>
        if ch.state.Ready? && replies.Some? { QueueShrinks(w, c, Received(ch, replies.value, more)); }
        else { FailThenSame(w, w, c, (x: Channel) => x.(reader := ReceiveTop, leftover := x.leftover || more)); }
      case ParseRuns(_, tail) =>
        if !ch.state.Ready? { QueueShrinks(w, c, ch.(reader := ReceiveTop)); }
        else if ch.redisIn != [] { DispatchAddsNothing(w, c); }
        else if tail.Incomplete? { QueueShrinks(w, c, ch.(reader := ReceiveTop)); }
        else { FailThenSame(w, w, c, (x: Channel) => x.(reader := ReceiveTop)); }
      case Start(_) => QueueShrinks(w, c, ch.(stopRequested := false, state := Connecting, run := RunTop));
      case RunContinues(_) => QueueShrinks(w, c, RunStep(ch));
      case RunWakes(_) => QueueShrinks(w, c, ch.(writerSignal := ch.writerSignal.Resume()));
      case ConnectReturns(_, ok) => QueueShrinks(w, c, Connected(ch, ok));
      case ReceiveRuns(_) => QueueShrinks(w, c, if ch.state.Ready? then ch.(reader := Receiving) else EndReader(ch));
      case Transmit(_, k) => QueueShrinks(w, c, Transmitted(ch, k));
      case RedisAnswers(_, k) => QueueShrinks(w, c, Replied(ch, k));
    }
  }

  lemma FailThenSame(w0: World, w: World, c: nat, f: Channel -> Channel)
    requires NothingNew(w0, w) && c < |w.channels| && forall ch :: f(ch).writeQueue == ch.writeQueue
    ensures var w' := FailConnection(w, c);
            c < |w'.channels| && NothingNew(w0, SetChannel(w', c, f(w'.channels[c])))
  {
    hide FailConnection;
    FailingAddsNothing(w, c);
    var w' := FailConnection(w, c);
    QueueShrinks(w', c, f(w'.channels[c]));
    NothingNewTwice(w, w', SetChannel(w', c, f(w'.channels[c])));
    NothingNewTwice(w0, w, SetChannel(w', c, f(w'.channels[c])));
  }

  lemma FinishAddsNothing(w: World, a: Addr, s: Session)
    ensures NothingNew(w, FinishLoop(w, a, s))
  {
    hide NothingNew, DetachAll, OwnedBy, Settle;
    SessionsOnly(w, SetSession(w, a, EndLoop(s)));
    if EndLoop(s).activeLoops == 0 { DetachingAddsNothing(w, FinishLoop(w, a, s), {a}); }
  }

  lemma AbortThenSession(w: World, s: set<Addr>, a: Addr, x: Session)
    ensures NothingNew(w, SetSession(Abort(w, s), a, x))
  {
    hide NothingNew, Abort;
    AbortAddsNothing(w, s);
    SessionsOnly(Abort(w, s), SetSession(Abort(w, s), a, x));
    NothingNewTwice(w, Abort(w, s), SetSession(Abort(w, s), a, x));
  }

  lemma SessionAddsNothing(cfg: Config, w: World, e: Event)
    requires Enabled(w, e)
    requires e.ReaderRuns? || e.ReadReturns? || e.ReaderWakes? || e.WriterRuns? || e.WriteReturns? || e.WriterWakes?
    requires !(e.ReaderRuns? && w.sessions[e.a].reader.ReaderTop? && w.sessions[e.a].state.Open?)
    ensures NothingNew(w, StepSession(cfg, w, e))
  {
    hide NothingNew, Abort, FinishLoop, ReaderTurn;
    var a := e.a;
    var s := w.sessions[a];
    match e {
      case ReaderRuns(_) =>
        if s.reader.Awaiting? { SessionsOnly(w, SetSession(w, a, AwaitReplies(s))); }
        else { FinishAddsNothing(w, a, s.(reader := ReaderExited)); }
      case ReadReturns(_, Data(bytes)) => SessionsOnly(w, SetSession(w, a, Feed(s, bytes)));
      case ReadReturns(_, Eof) => SessionsOnly(w, SetSession(w, a, HangUp(s)));
      case ReadReturns(_, ReadError) =>
        AbortKeepsKeys(w, if s.state.Open? then {a} else {}, a);
        var w' := Abort(w, if s.state.Open? then {a} else {});
        AbortThenSession(w, if s.state.Open? then {a} else {}, a, w'.sessions[a].(reader := ReaderTop));
      case ReaderWakes(_) => SessionsOnly(w, SetSession(w, a, s.(replySignal := s.replySignal.Resume())));
      case WriterRuns(_) =>
        if WriterDone(s) { FinishAddsNothing(w, a, s.(writer := WriterExited)); }
        else { SessionsOnly(w, SetSession(w, a, WriteTurn(s))); }
      case WriteReturns(_, ok) =>
        AbortKeepsKeys(w, if ok then {} else {a}, a);
        var w' := Abort(w, if ok then {} else {a});
        AbortThenSession(w, if ok then {} else {a}, a, w'.sessions[a].(writer := WriterTop));
      case WriterWakes(_) => SessionsOnly(w, SetSession(w, a, s.(outputSignal := s.outputSignal.Resume())));
    }
  }

  lemma AbortKeepsKeys(w: World, s: set<Addr>, a: Addr)
    requires a in w.sessions
    ensures a in Abort(w, s).sessions
  {
  }

  /** A reader's turn adds, if anything, the batch of requests it has just accepted. */
  lemma ReaderAddsItsBatch(cfg: Config, w: World, a: Addr, c: nat, b: RequestBatch)
    requires a in w.sessions && w.sessions[a].reader.ReaderTop? && w.sessions[a].state.Open?
    requires c < |w.channels| && c < |ReaderTurn(cfg, w, a).channels|
    requires b in ReaderTurn(cfg, w, a).channels[c].writeQueue && b !in w.channels[c].writeQueue
    ensures Origin(ReaderTurn(cfg, w, a), b)
  {
    hide Scan, FrameBytes, Abort, Origin;
    var s := w.sessions[a];
    var (rs, stop) := Scan(cfg, s.clientIn, cfg.pipeline);
    ScanSound(cfg, s.clientIn, cfg.pipeline);
    var choice := Select(w.channels, s.currentBackend);
    if rs != [] && choice.None? {
      AbortAddsNothing(w, {a});
      assert false;
    }
    SubmittedOrigin(w, a, choice.value, rs, b);
    var w' := SubmitBatch(w, a, choice.value, rs);
    AfterScanGrows(w'.sessions[a], stop);
    OriginStays(w', SetSession(w', a, AfterScan(w'.sessions[a], stop)), b);
  }

  lemma AfterScanGrows(s: Session, stop: Stop)
    requires stop.Refused? ==> |stop.frame| <= |s.clientIn|
    ensures s.requests <= AfterScan(s, stop).requests && AfterScan(s, stop).inc == s.inc
  {
  }

  lemma SubmittedOrigin(w: World, a: Addr, c: nat, rs: seq<Request>, b: RequestBatch)
    requires a in w.sessions && c < |w.channels| && |FrameBytes(rs)| <= |w.sessions[a].clientIn|
    requires forall i :: 0 <= i < |rs| ==> rs[i].Accept?
    requires b == RequestBatch(a, |rs|, Range(w.sessions[a].inc, |w.sessions[a].requests|, |rs|), rs)
    ensures Origin(SubmitBatch(w, a, c, rs), b)
  {
    hide FrameBytes;
  }

  lemma OriginStays(w: World, w': World, b: RequestBatch)
    requires Origin(w, b) && b.owner in w'.sessions && w'.sessions[b.owner].inc == w.sessions[b.owner].inc
    requires w.sessions[b.owner].requests <= w'.sessions[b.owner].requests
    ensures Origin(w', b)
  {
  }

  lemma StepBatches(cfg: Config, w: World, e: Event, c: nat, b: RequestBatch)
    requires Enabled(w, e) && c < |w.channels| && c < |Step(cfg, w, e).channels|
    requires b in Step(cfg, w, e).channels[c].writeQueue
    ensures b in w.channels[c].writeQueue || Origin(Step(cfg, w, e), b)
  {
    hide StepSession, StepChannel, ReaderTurn, Origin;
    if e.ClientArrives? || e.Reap? {
    } else if e.ReaderRuns? || e.ReadReturns? || e.ReaderWakes? || e.WriterRuns? || e.WriteReturns? || e.WriterWakes? {
      if e.ReaderRuns? && w.sessions[e.a].reader.ReaderTop? && w.sessions[e.a].state.Open? {
        ReaderRunsIsTurn(cfg, w, e.a);
        if b !in w.channels[c].writeQueue { ReaderAddsItsBatch(cfg, w, e.a, c, b); }
      } else {
        SessionAddsNothing(cfg, w, e);
      }
    } else {
      ChannelAddsNothing(w, e);
    }
  }

  lemma ReaderRunsIsTurn(cfg: Config, w: World, a: Addr)
    requires Enabled(w, ReaderRuns(a)) && w.sessions[a].reader.ReaderTop? && w.sessions[a].state.Open?
    ensures StepSession(cfg, w, ReaderRuns(a)) == ReaderTurn(cfg, w, a)
  {
    hide ReaderTurn;
  }

  /** At some moment up to `n` the batch was what its owner, then alive, had just asked for. */
  ghost predicate Asked(ws: seq<World>, n: nat, b: RequestBatch)
    requires n < |ws|
  {
    exists m :: 0 <= m <= n && Origin(ws[m], b)
  }

  /**
   On every run, each batch waiting in a write queue, and each batch a connection has started, is
   request for request a stretch of what one session had asked for when it submitted the batch.
   */
  lemma {:induction false} BatchesWereAsked(cfg: Config, ws: seq<World>, es: seq<Event>, n: nat, c: nat, b: RequestBatch)
    requires cfg.Valid() && Run(cfg, ws, es) && n < |ws| && c < |ws[n].channels|
    requires b in ws[n].channels[c].writeQueue || b in ws[n].channels[c].conn.popped
    ensures Asked(ws, n, b)
    decreases n
  {
    hide Inv, Step, Enabled, Origin;
    if n > 0 {
      var w, w' := ws[n - 1], ws[n];
      ChannelsStay(cfg, ws, es, n - 1);
      BatchesLeaveInOrder(cfg, ws, es, n - 1, c);
      if b in w'.channels[c].writeQueue { StepBatches(cfg, w, es[n - 1], c, b); }
      if b in w.channels[c].writeQueue || b in w.channels[c].conn.popped {
        BatchesWereAsked(cfg, ws, es, n - 1, c, b);
      } else {
        assert Origin(ws[n], b);
      }
    }
  }

  lemma ChannelsStay(cfg: Config, ws: seq<World>, es: seq<Event>, n: nat)
    requires cfg.Valid() && Run(cfg, ws, es) && n < |es|
    ensures |ws[n + 1].channels| == |ws[n].channels|
  {
    hide Inv, StepSession, StepChannel, Enabled;
    RunInv(cfg, ws, es, n);
    var w, e := ws[n], es[n];
    if e.Start? || e.RunContinues? || e.ConnectReturns? {
      SameChannels(w, e);
    } else if !(e.ClientArrives? || e.Reap?) {
      StepFrame(cfg, w, e);
    }
  }

  lemma SameChannels(w: World, e: Event)
    requires Enabled(w, e) && (e.Start? || e.RunContinues? || e.ConnectReturns?)
    ensures |StepChannel(w, e).channels| == |w.channels|
  {
    hide FailConnection, Dispatch, RunStep, Connected;
  }

  // ----- what Redis reads -----

  /** The commands of the given batches as the frames they are made of. */
  function Frames(batches: seq<RequestBatch>): seq<Request> {
    if batches == [] then [] else Frames(batches[..|batches| - 1]) + batches[|batches| - 1].frames
  }

  lemma {:induction false} ClassifyJudged(cfg: Config, s: Bytes, eof: bool, i: nat)
    requires i < |Classify(cfg, s, eof)| && Classify(cfg, s, eof)[i].Accept?
    ensures Judged(cfg, Classify(cfg, s, eof)[i])
    decreases |s|
  {
    hide Peek;
    var p := Peek(cfg, s);
    if p.Command? {
      FrameIsJudged(cfg, s);
      if i > 0 { ClassifyJudged(cfg, s[p.consumed..], eof, i - 1); }
    }
  }

  lemma OriginJudged(cfg: Config, w: World, b: RequestBatch)
    requires Inv(cfg, w) && Origin(w, b)
    ensures AllJudged(cfg, b.frames) && |b.frames| == |b.tags|
  {
    hide Inv, Judged, Classify;
    var s := w.sessions[b.owner];
    Theorems.LocalSession(cfg, w, b.owner);
    Theorems.SessionAnswers(cfg, s);
    forall k | 0 <= k < |b.frames| ensures Judged(cfg, b.frames[k]) && !b.frames[k].Fatal? {
      ClassifyJudged(cfg, s.received, s.eof, b.tags[k].index);
    }
  }

  lemma {:induction false} FramesJudged(cfg: Config, batches: seq<RequestBatch>)
    requires forall i :: 0 <= i < |batches| ==> AllJudged(cfg, batches[i].frames) && |batches[i].frames| == |batches[i].tags|
    ensures AllJudged(cfg, Frames(batches)) && |Frames(batches)| == |Commands(batches)|
  {
    hide Judged;
    if batches != [] { FramesJudged(cfg, batches[..|batches| - 1]); }
  }

  /** Every batch a connection has started is made of well-formed frames, one for each of its commands. */
  lemma StartedAreJudged(cfg: Config, ws: seq<World>, es: seq<Event>, n: nat, c: nat)
    requires cfg.Valid() && Run(cfg, ws, es) && n < |ws| && c < |ws[n].channels|
    ensures var h := ws[n].channels[c].conn;
            AllJudged(cfg, Frames(h.popped)) && |Frames(h.popped)| == |Commands(h.popped)|
  {
    hide Run, Inv, AllJudged, Origin;
    var h := ws[n].channels[c].conn;
    forall i | 0 <= i < |h.popped|
      ensures AllJudged(cfg, h.popped[i].frames) && |h.popped[i].frames| == |h.popped[i].tags|
    {
      BatchesWereAsked(cfg, ws, es, n, c, h.popped[i]);
      var m :| 0 <= m <= n && Origin(ws[m], h.popped[i]);
      RunInv(cfg, ws, es, m);
      OriginJudged(cfg, ws[m], h.popped[i]);
    }
    FramesJudged(cfg, h.popped);
  }

  /**
   The bytes `wire` are what a connection with history `h` has written: the frames of the commands it
   has carried, and less than all of the next one's.
   */
  ghost predicate Writes(h: Connection, wire: Bytes) {
    var frames, k := Frames(h.popped), |h.carried|;
    && k <= |frames| == |Commands(h.popped)| && h.carried == Commands(h.popped)[..k]
    && FrameBytes(frames[..k]) <= wire <= FrameBytes(frames)
    && (k < |frames| ==> |wire| < |FrameBytes(frames[..k + 1])|)
  }

  /**
   On every run, what Redis can make of the bytes a connection has written is exactly the commands the
   connection has carried, in order -- a command cut short shows nothing.
   */
  lemma RedisReadsWhatIsCarried(cfg: Config, ws: seq<World>, es: seq<Event>, n: nat, c: nat, wire: Bytes)
    requires cfg.Valid() && Run(cfg, ws, es) && n < |ws| && c < |ws[n].channels|
    requires Writes(ws[n].channels[c].conn, wire)
    ensures var h := ws[n].channels[c].conn;
            Classify(cfg, wire, false) == Frames(h.popped)[..|h.carried|]
  {
    hide Run, Writes;
    StartedAreJudged(cfg, ws, es, n, c);
    WrittenIsRead(cfg, ws[n].channels[c].conn, wire);
  }

  lemma WrittenIsRead(cfg: Config, h: Connection, wire: Bytes)
    requires cfg.Valid() && Writes(h, wire) && AllJudged(cfg, Frames(h.popped))
    ensures Classify(cfg, wire, false) == Frames(h.popped)[..|h.carried|]
  {
    hide Classify, Judged, FrameBytes, Frames, Commands;
    var frames, k := Frames(h.popped), |h.carried|;
    var head := FrameBytes(frames[..k]);
    var part := wire[|head|..];
    assert wire == head + part;
    ClassifyTaken(cfg, frames[..k], part, false);
    if k < |frames| {
      NextFrame(frames, k);
      FrameBytesConcat(frames[..k + 1], frames[k + 1..]);
      assert frames[..k + 1] + frames[k + 1..] == frames;
      assert wire <= FrameBytes(frames) && FrameBytes(frames[..k + 1]) <= FrameBytes(frames);
      assert part == frames[k].frame[..|part|];
      CutFrame(cfg, frames[k], |part|);
    } else {
      assert frames[..k] == frames && part == [];
      Theorems.NothingToClassify(cfg, false);
    }
    assert frames[..k] + [] == frames[..k];
  }

  lemma NextFrame(frames: seq<Request>, k: nat)
    requires k < |frames| && !frames[k].Fatal?
    ensures FrameBytes(frames[..k + 1]) == FrameBytes(frames[..k]) + frames[k].frame
  {
    var more := frames[..k + 1];
    assert more[..|more| - 1] == frames[..k] && more[|more| - 1] == frames[k];
  }
}
