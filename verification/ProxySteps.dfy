/** Every event keeps the invariant, so it holds throughout every run. */
module ProxySteps {
  import opened Resp
  import opened Signals
  import opened Framing
  import opened Channels
  import opened Sessions
  import opened Proxy
  import opened ProxyInv

  // ----- sessions come and go -----

  lemma EndLoopFate(w: World, a: Addr, s': Session)
    requires FateInv(w, {}) && a in w.sessions
    requires var s := w.sessions[a];
             s'.inc == s.inc && s'.requests == s.requests && s'.queued == s.queued
             && s'.pendingReplies == s.pendingReplies && s'.state == s.state
    ensures FateInv(SetSession(w, a, s'), {})
  {
    hide Orphan;
    var w' := SetSession(w, a, s');
    forall u | u in w'.fate && w'.fate[u].Outstanding?
      ensures exists b :: b in w'.sessions && b !in {} && Waits(w'.sessions[b], u)
    {
      var b :| b in w.sessions && b !in {} && Waits(w.sessions[b], u);
      assert Waits(w'.sessions[b], u);
    }
    forall b, i | b in w'.sessions && 0 <= i < |w'.sessions[b].requests| && w'.sessions[b].requests[i].Accept?
      ensures AcceptedFate(w', {}, b, i)
    {
      assert AcceptedFate(w, {}, b, i);
    }
  }

  lemma EndLoopCoupled(w: World, a: Addr, s': Session)
    requires Coupled(w, {}) && a in w.sessions
    requires var s := w.sessions[a];
             s'.inc == s.inc && s'.queued == s.queued
             && s'.pendingReplies == s.pendingReplies && s'.currentBackend == s.currentBackend
    ensures Coupled(SetSession(w, a, s'), {})
  {
    hide Owned;
    var w' := SetSession(w, a, s');
    forall d, b: Addr | 0 <= d < |w'.channels| ensures Owned(w'.channels[d], b) == Share(w', {}, d, b) {
      assert Share(w', {}, d, b) == Share(w, {}, d, b);
    }
  }

  lemma EndLoopBook(w: World, a: Addr, s': Session)
    requires Book(w) && a in w.sessions && s'.inc == w.sessions[a].inc
    requires w.sessions[a].activeLoops > 0
    ensures var w' := SetSession(w, a, s');
            Book(if s'.activeLoops == 0 then w'.(finished := w.finished + [a]) else w')
  {
    assert a !in w.finished;
  }

  /** `finishLoop` keeps the invariant; its `detachOwner` never finds anything. */
  lemma FinishInv(cfg: Config, w: World, a: Addr, s: Session)
    requires Inv(cfg, w) && a in w.sessions && SessionInv(cfg, EndLoop(s))
    requires s == w.sessions[a].(reader := s.reader, writer := s.writer)
    requires w.sessions[a].activeLoops > 0
    requires s.activeLoops == 1 ==> s.pendingReplies == 0
    ensures Inv(cfg, FinishLoop(w, a, s))
  {
    hide SessionInv, ChannelInv, FateInv, Coupled, Book, Owned, OwnedBy, Detach;
    var s' := EndLoop(s);
    var w' := SetSession(w, a, s');
    EndLoopFate(w, a, s');
    EndLoopCoupled(w, a, s');
    EndLoopBook(w, a, s');
    if s'.activeLoops == 0 {
      FinishDetachesNothing(cfg, w, a);
      assert Settle(w.fate, {}, Discarded) == w.fate;
      FinishedIrrelevant(w', w.finished + [a]);
    }
  }

  lemma FinishedIrrelevant(w: World, f: seq<Addr>)
    ensures FateInv(w, {}) ==> FateInv(w.(finished := f), {})
    ensures Coupled(w, {}) ==> Coupled(w.(finished := f), {})
  {
    hide Owned, Orphan;
    var w' := w.(finished := f);
    if FateInv(w, {}) {
      forall b, i | b in w'.sessions && 0 <= i < |w'.sessions[b].requests| && w'.sessions[b].requests[i].Accept?
        ensures AcceptedFate(w', {}, b, i)
      {
        assert AcceptedFate(w, {}, b, i);
      }
    }
    if Coupled(w, {}) {
      forall d, b: Addr | 0 <= d < |w'.channels| ensures Owned(w'.channels[d], b) == Share(w', {}, d, b) {
        assert Share(w', {}, d, b) == Share(w, {}, d, b);
      }
    }
  }

  lemma ArriveCoupled(w: World, a: Addr)
    requires Coupled(w, {}) && a !in w.sessions
    ensures Coupled(SetSession(w, a, NewSession(w.nextInc)).(nextInc := w.nextInc + 1), {})
  {
    hide Owned;
    var w' := SetSession(w, a, NewSession(w.nextInc)).(nextInc := w.nextInc + 1);
    forall d, b: Addr | 0 <= d < |w'.channels| ensures Owned(w'.channels[d], b) == Share(w', {}, d, b) {
      assert Owned(w.channels[d], b) == Share(w, {}, d, b);
    }
  }

  lemma ArriveFate(w: World, a: Addr)
    requires FateInv(w, {}) && a !in w.sessions
    ensures FateInv(SetSession(w, a, NewSession(w.nextInc)).(nextInc := w.nextInc + 1), {})
  {
    hide Orphan;
    var w' := SetSession(w, a, NewSession(w.nextInc)).(nextInc := w.nextInc + 1);
    forall u | u in w'.fate && w'.fate[u].Outstanding?
      ensures exists b :: b in w'.sessions && b !in {} && Waits(w'.sessions[b], u)
    {
      var b :| b in w.sessions && b !in {} && Waits(w.sessions[b], u);
      assert Waits(w'.sessions[b], u);
    }
    forall b, i | b in w'.sessions && 0 <= i < |w'.sessions[b].requests| && w'.sessions[b].requests[i].Accept?
      ensures AcceptedFate(w', {}, b, i)
    {
      assert AcceptedFate(w, {}, b, i);
    }
  }

  lemma ArriveInv(cfg: Config, w: World, a: Addr)
    requires Inv(cfg, w) && a !in w.sessions
    ensures Inv(cfg, Step(cfg, w, ClientArrives(a)))
  {
    hide SessionInv, ChannelInv, FateInv, Coupled, NewSession;
    ArriveCoupled(w, a);
    ArriveFate(w, a);
    NewSessionInv(cfg, w.nextInc);
    NewSessionLoops(w.nextInc);
  }

  lemma NewSessionLoops(inc: nat)
    ensures NewSession(inc).inc == inc && NewSession(inc).activeLoops == 2
  {
  }

  lemma ReapCoupled(cfg: Config, w: World)
    requires Local(cfg, w) && Coupled(w, {}) && Book(w)
    ensures Coupled(Step(cfg, w, Reap), {})
  {
    hide Owned, SessionInv, ChannelInv;
    var w' := Step(cfg, w, Reap);
    forall d, b: Addr | 0 <= d < |w'.channels| ensures Owned(w'.channels[d], b) == Share(w', {}, d, b) {
      assert Owned(w.channels[d], b) == Share(w, {}, d, b);
      if b in w.sessions { FinishedWaitsForNothing(cfg, w.sessions[b]); }
    }
  }

  lemma FinishedWaitsForNothing(cfg: Config, s: Session)
    requires SessionInv(cfg, s)
    ensures s.activeLoops == 0 ==> s.pendingReplies == 0 && s.currentBackend.None?
  {
  }

  lemma ReapFate(cfg: Config, w: World)
    requires Local(cfg, w) && FateInv(w, {}) && Book(w)
    ensures FateInv(Step(cfg, w, Reap), {})
  {
    hide Orphan, SessionInv, ChannelInv;
    var w' := Step(cfg, w, Reap);
    forall u | u in w'.fate && w'.fate[u].Outstanding?
      ensures exists b :: b in w'.sessions && b !in {} && Waits(w'.sessions[b], u)
    {
      var b :| b in w.sessions && b !in {} && Waits(w.sessions[b], u);
      FinishedWaitsForNothing(cfg, w.sessions[b]);
      assert Waits(w'.sessions[b], u);
    }
    forall b, i | b in w'.sessions && 0 <= i < |w'.sessions[b].requests| && w'.sessions[b].requests[i].Accept?
      ensures AcceptedFate(w', {}, b, i)
    {
      assert AcceptedFate(w, {}, b, i);
    }
  }

  lemma ReapInv(cfg: Config, w: World)
    requires Inv(cfg, w)
    ensures Inv(cfg, Step(cfg, w, Reap))
  {
    hide SessionInv, ChannelInv, FateInv, Coupled;
    ReapCoupled(cfg, w);
    ReapFate(cfg, w);
  }

  // ----- the reader's turn -----

  lemma AfterScanKeeps(cfg: Config, s: Session, stop: Stop)
    requires cfg.Valid() && SessionInv(cfg, s) && s.state.Open? && s.reader.ReaderTop? && StopsAt(cfg, s.clientIn, stop)
    ensures SessionInv(cfg, AfterScan(s, stop)) && Quiet(s, AfterScan(s, stop))
  {
    hide Classify, Judged, FrameBytes, Peek;
    match stop
    case Broken => BrokenKeeps(cfg, s);
    case Refused(frame, message) => RefuseKeeps(cfg, s, frame, message);
    case OutOfBudget => PeekEmpty(cfg);
    case Starved =>
  }

  lemma {:induction false} LeastLoadedReady(chs: seq<Channel>, n: nat)
    requires n <= |chs|
    ensures var r := LeastLoaded(chs, n);
            && (r.Some? ==> chs[r.value].state.Ready?)
            && (r.None? ==> forall c :: 0 <= c < n ==> !chs[c].state.Ready?)
            && (r.Some? ==> forall c :: 0 <= c < n && chs[c].state.Ready? ==>
                  chs[r.value].queuedCommands <= chs[c].queuedCommands
                  && (c < r.value ==> chs[r.value].queuedCommands < chs[c].queuedCommands))
  {
    if n > 0 { LeastLoadedReady(chs, n - 1); }
  }

  lemma ReaderTurnInv(cfg: Config, w: World, a: Addr)
    requires cfg.Valid() && Inv(cfg, w) && a in w.sessions && w.sessions[a].reader.ReaderTop? && w.sessions[a].state.Open?
    ensures Inv(cfg, ReaderTurn(cfg, w, a))
  {
    hide SessionInv, ChannelInv, FateInv, Coupled, Book, FrameBytes, Judged, Scan, Quiet;
    var s := w.sessions[a];
    var (rs, stop) := Scan(cfg, s.clientIn, cfg.pipeline);
    ScanSound(cfg, s.clientIn, cfg.pipeline);
    if rs == [] {
      NothingTaken(s.clientIn);
      AfterScanKeeps(cfg, s, stop);
      QuietKeeps(cfg, w, {}, a, AfterScan(s, stop));
    } else {
      var choice := Select(w.channels, s.currentBackend);
      LeastLoadedReady(w.channels, |w.channels|);
      if choice.None? {
        AbortInv(cfg, w, {}, {a});
        assert {} - {a} == {};
        var w' := Abort(w, {a});
        var s' := w'.sessions[a].(clientIn := s.clientIn[|FrameBytes(rs)|..]);
        AbortedInput(cfg, w'.sessions[a], s');
        QuietKeeps(cfg, w', {}, a, s');
      } else {
        SubmitInv(cfg, w, a, choice.value, rs);
        var w' := SubmitBatch(w, a, choice.value, rs);
        AfterScanKeeps(cfg, w'.sessions[a], stop);
        QuietKeeps(cfg, w', {}, a, AfterScan(w'.sessions[a], stop));
      }
    }
  }

  lemma NothingTaken(s: Bytes)
    ensures s[|FrameBytes([])|..] == s
  {
  }

  lemma AbortedInput(cfg: Config, s: Session, s': Session)
    requires SessionInv(cfg, s) && s.state.Aborted? && s' == s.(clientIn := s'.clientIn)
    ensures SessionInv(cfg, s') && Quiet(s, s')
  {
    hide Classify, Judged, FrameBytes, Peek;
  }

  // ----- session events -----

  lemma WakesKeep(cfg: Config, s: Session)
    requires SessionInv(cfg, s)
    ensures s.replySignal.waiter.Woken? ==>
              SessionInv(cfg, s.(replySignal := s.replySignal.Resume())) && Quiet(s, s.(replySignal := s.replySignal.Resume()))
    ensures s.outputSignal.waiter.Woken? ==>
              SessionInv(cfg, s.(outputSignal := s.outputSignal.Resume())) && Quiet(s, s.(outputSignal := s.outputSignal.Resume()))
  {
    hide Classify, Judged, FrameBytes, Peek;
  }

  /** After an abort, or a completed write, the loops go back to their tops. */
  lemma BackToTop(cfg: Config, s: Session)
    requires SessionInv(cfg, s)
    ensures s.reader.Reading? && !s.state.Open? ==>
              SessionInv(cfg, s.(reader := ReaderTop)) && Quiet(s, s.(reader := ReaderTop))
    ensures s.writer.Sending? ==>
              SessionInv(cfg, s.(writer := WriterTop)) && Quiet(s, s.(writer := WriterTop))
  {
    hide Classify, Judged, FrameBytes, Peek;
  }

  lemma ReadQuiet(cfg: Config, s: Session, data: Bytes)
    requires SessionInv(cfg, s) && s.reader.Reading?
    ensures Quiet(s, Feed(s, data)) && Quiet(s, HangUp(s))
  {
    hide Classify, Judged, FrameBytes, Peek;
  }

  lemma AwaitQuiet(cfg: Config, s: Session)
    requires SessionInv(cfg, s) && s.reader.Awaiting?
    ensures Quiet(s, AwaitReplies(s))
  {
    hide Classify, Judged, FrameBytes, Peek;
    if s.state.Open? && s.pendingReplies == 0 { assert s.requests[|s.queued|] == Remainder(s)[0]; }
  }

  lemma WriteQuiet(cfg: Config, s: Session)
    requires SessionInv(cfg, s) && !WriterDone(s)
    ensures Quiet(s, WriteTurn(s))
  {
    hide Classify, Judged, FrameBytes, Peek;
    if s.clientOut == [] && s.state.Draining? && s.pendingReplies == 0 { assert s.requests[|s.queued|] == Remainder(s)[0]; }
  }

  lemma LoopsLeft(cfg: Config, s: Session)
    requires SessionInv(cfg, s)
    ensures !s.reader.ReaderExited? || !s.writer.WriterExited? ==> s.activeLoops > 0
    ensures s.activeLoops == 1 && s.reader.ReaderExited? && WriterDone(s) ==> s.pendingReplies == 0
    ensures s.activeLoops == 1 && s.writer.WriterExited? ==> s.pendingReplies == 0
    ensures s.activeLoops == 1 && !s.reader.ReaderExited? ==> s.writer.WriterExited?
    ensures s.activeLoops == 1 && !s.writer.WriterExited? ==> s.reader.ReaderExited?
  {
    hide Classify, Judged, FrameBytes, Peek;
  }

  lemma ReaderRunsInv(cfg: Config, w: World, a: Addr)
    requires cfg.Valid() && Inv(cfg, w) && Enabled(w, ReaderRuns(a))
    ensures Inv(cfg, StepSession(cfg, w, ReaderRuns(a)))
  {
    hide SessionInv, ChannelInv, FateInv, Coupled, Book, Quiet, Scan;
    var s := w.sessions[a];
    if s.reader.Awaiting? {
      AwaitKeeps(cfg, s);
      AwaitQuiet(cfg, s);
      QuietKeeps(cfg, w, {}, a, AwaitReplies(s));
    } else if s.state.Open? {
      ReaderTurnInv(cfg, w, a);
    } else {
      EndReaderKeeps(cfg, s);
      LoopsLeft(cfg, s);
      FinishInv(cfg, w, a, s.(reader := ReaderExited));
    }
  }

  lemma ReadReturnsInv(cfg: Config, w: World, a: Addr, result: ReadResult)
    requires Inv(cfg, w) && Enabled(w, ReadReturns(a, result))
    ensures Inv(cfg, StepSession(cfg, w, ReadReturns(a, result)))
  {
    hide SessionInv, ChannelInv, FateInv, Coupled, Book, Quiet, Scan;
    var s := w.sessions[a];
    match result
    case Data(bytes) =>
      FeedKeeps(cfg, s, bytes);
      ReadQuiet(cfg, s, bytes);
      QuietKeeps(cfg, w, {}, a, Feed(s, bytes));
    case Eof =>
      HangUpKeeps(cfg, s);
      ReadQuiet(cfg, s, []);
      QuietKeeps(cfg, w, {}, a, HangUp(s));
    case ReadError =>
      var gone := if s.state.Open? then {a} else {};
      AbortInv(cfg, w, {}, gone);
      assert {} - gone == {};
      var w' := Abort(w, gone);
      BackToTop(cfg, w'.sessions[a]);
      QuietKeeps(cfg, w', {}, a, w'.sessions[a].(reader := ReaderTop));
  }

  lemma WriterInv(cfg: Config, w: World, e: Event)
    requires Inv(cfg, w) && Enabled(w, e) && (e.WriterRuns? || e.WriteReturns? || e.WriterWakes? || e.ReaderWakes?)
    ensures Inv(cfg, StepSession(cfg, w, e))
  {
    hide SessionInv, ChannelInv, FateInv, Coupled, Book, Quiet, Scan;
    var a := e.a;
    var s := w.sessions[a];
    match e {
      case WriterRuns(_) =>
        if WriterDone(s) {
          EndWriterKeeps(cfg, s);
          LoopsLeft(cfg, s);
          FinishInv(cfg, w, a, s.(writer := WriterExited));
        } else {
          WriteTurnKeeps(cfg, s);
          WriteQuiet(cfg, s);
          QuietKeeps(cfg, w, {}, a, WriteTurn(s));
        }
      case WriteReturns(_, ok) =>
        var gone := if ok then {} else {a};
        AbortInv(cfg, w, {}, gone);
        assert {} - gone == {};
        var w' := Abort(w, gone);
        BackToTop(cfg, w'.sessions[a]);
        QuietKeeps(cfg, w', {}, a, w'.sessions[a].(writer := WriterTop));
      case WriterWakes(_) =>
        WakesKeep(cfg, s);
        QuietKeeps(cfg, w, {}, a, s.(outputSignal := s.outputSignal.Resume()));
      case ReaderWakes(_) =>
        WakesKeep(cfg, s);
        QuietKeeps(cfg, w, {}, a, s.(replySignal := s.replySignal.Resume()));
    }
  }

  // ----- channel events -----

  /** A channel step that leaves both queues alone only has to keep the channel's own invariant. */
  lemma QueuesAlone(cfg: Config, w: World, c: nat, ch': Channel)
    requires Inv(cfg, w) && c < |w.channels| && ChannelInv(ch')
    requires ch'.writeQueue == w.channels[c].writeQueue && ch'.pendingQueue == w.channels[c].pendingQueue
    ensures Inv(cfg, SetChannel(w, c, ch'))
  {
    hide Local, Coupled, FateInv, Book, ChannelInv;
    ChannelKeeps(cfg, w, {}, c, ch');
  }

  lemma RunStepKeeps(ch: Channel)
    requires ChannelInv(ch) && ch.writerSignal.waiter.Running?
    requires ch.run.RunTop? || ch.run.BatchTop? || ch.run.JoinTop? || ch.run.Backoff?
    requires !(ch.run.BatchTop? && ch.state.Ready? && ch.writeQueue != [])
    ensures ChannelInv(RunStep(ch))
  {
    hide PendingTags, PendingCount, WriteCount, Commands;
  }

  lemma ConnectedKeeps(ch: Channel, ok: bool)
    requires ChannelInv(ch) && ch.run.AtConnect?
    ensures ChannelInv(Connected(ch, ok))
  {
    hide PendingCount, WriteCount;
  }

  lemma SmallChannelSteps(ch: Channel)
    requires ChannelInv(ch)
    ensures ch.state.Stopped? ==> ChannelInv(ch.(stopRequested := false, state := Connecting, run := RunTop))
    ensures ChannelInv(ch.(stopRequested := true))
    ensures ChannelInv(ch.(writerSignal := ch.writerSignal.Notify()))
    ensures ch.writerSignal.waiter.Woken? ==> ChannelInv(ch.(writerSignal := ch.writerSignal.Resume()))
  {
    hide PendingTags, PendingCount, WriteCount, Commands;
  }

  lemma ReceiverSteps(ch: Channel)
    requires ChannelInv(ch) && !ch.reader.NoReader?
    ensures ch.state.Ready? ==> ChannelInv(ch.(reader := Receiving))
    ensures !ch.state.Ready? ==> ChannelInv(EndReader(ch))
    ensures forall more :: ChannelInv(ch.(reader := ReceiveTop, leftover := more))
    ensures ChannelInv(ch.(reader := ReceiveTop))
  {
    hide PendingTags, PendingCount, WriteCount, Commands;
  }

  lemma WritingDone(ch: Channel)
    requires ChannelInv(ch) && ch.run.Writing? && (ch.unsent == [] || !ch.state.Ready?)
    ensures ChannelInv(ch.(run := BatchTop, unsent := []))
  {
    hide PendingTags, PendingCount, WriteCount, Commands;
    assert ch.unsent == [] ==> ch.(unsent := []) == ch;
    assert ch.conn.carried + [] == ch.conn.carried;
  }

  /** Bytes move along the wire; what is owed, and in which order, stays the same. */
  lemma WireKeeps(ch: Channel, ch': Channel)
    requires ChannelInv(ch) && Unanswered(ch') == Unanswered(ch) && HistoryInv(ch')
    requires ch'.unsent != [] ==> ch.unsent != []
    requires ch'.reader == ch.reader || (ch.reader.Receiving? && ch'.reader.Parsing?)
    requires ch' == ch.(redisIn := ch'.redisIn, inTransit := ch'.inTransit, atRedis := ch'.atRedis, unsent := ch'.unsent,
                        reader := ch'.reader, leftover := ch'.leftover, conn := ch'.conn)
    requires ch'.leftover ==> ch.leftover || !ch.reader.NoReader?
    ensures ChannelInv(ch')
  {
    hide PendingTags, PendingCount, WriteCount, Unanswered, HistoryInv;
  }

  lemma WireSteps(ch: Channel, k: nat)
    requires ChannelInv(ch)
    ensures k <= |ch.unsent| ==> ChannelInv(Transmitted(ch, k))
    ensures k <= |ch.atRedis| ==> ChannelInv(Replied(ch, k))
    ensures k <= |ch.inTransit| && ch.reader.Receiving? ==> forall more :: ChannelInv(Received(ch, k, more))
  {
    hide Unanswered, HistoryInv, ControlInv, ChannelAwake, QueueInv;
    WireOrder(ch, k);
    if k <= |ch.unsent| {
      TransmittedHistory(ch, k);
      WireKeeps(ch, Transmitted(ch, k));
    }
    if k <= |ch.atRedis| {
      SameHistory(ch, Replied(ch, k));
      WireKeeps(ch, Replied(ch, k));
    }
    if k <= |ch.inTransit| && ch.reader.Receiving? {
      forall more ensures ChannelInv(Received(ch, k, more)) {
        SameHistory(ch, Received(ch, k, more));
        WireKeeps(ch, Received(ch, k, more));
      }
    }
  }

  lemma SameHistory(ch: Channel, ch': Channel)
    requires HistoryInv(ch) && ch'.conn == ch.conn && ch'.unsent == ch.unsent && ch'.state == ch.state
    ensures HistoryInv(ch')
  {
  }

  lemma RunContinuesInv(cfg: Config, w: World, c: nat)
    requires Inv(cfg, w) && Enabled(w, RunContinues(c))
    ensures Inv(cfg, SetChannel(w, c, RunStep(w.channels[c])))
  {
    hide SessionInv, ChannelInv, FateInv, Coupled, Book, Owned, Orphan;
    var ch := w.channels[c];
    if ch.run.BatchTop? && ch.state.Ready? && ch.writeQueue != [] {
      forall a: Addr ensures Owned(TakeBatch(ch), a) == Owned(ch, a) { TakeBatchKeeps(ch, a); }
      TakeBatchKeeps(ch, 0);
      ChannelKeeps(cfg, w, {}, c, TakeBatch(ch));
    } else {
      RunStepKeeps(ch);
      QueuesAlone(cfg, w, c, RunStep(ch));
    }
  }

  /** What failing a connection leaves alone in every channel. */
  lemma FailControl(w: World, c: nat, d: nat)
    requires c < |w.channels| && d < |w.channels|
    ensures |FailConnection(w, c).channels| == |w.channels|
    ensures var ch, ch' := w.channels[d], FailConnection(w, c).channels[d];
            && ch'.run == ch.run && ch'.reader == ch.reader && ch'.unsent == ch.unsent
            && ch'.stopRequested == ch.stopRequested && ch'.redisIn == ch.redisIn && ch'.conn == ch.conn
            && (ch'.state == ch.state || (d == c && ch.state.Ready? && ch'.state.Closing?))
            && (d == c ==> !ch'.state.Ready?)
  {
  }

  lemma ChannelEventsInv(cfg: Config, w: World, e: Event)
    requires Inv(cfg, w) && Enabled(w, e)
    requires e.Start? || e.RunWakes? || e.ConnectReturns? || e.ReceiveRuns? || e.Transmit? || e.RedisAnswers?
    ensures Inv(cfg, StepChannel(w, e))
  {
    hide SessionInv, ChannelInv, FateInv, Coupled, Book, Local;
    var ch := w.channels[e.c];
    LocalChannel(cfg, w, e.c);
    match e {
      case Start(c) =>
        SmallChannelSteps(ch);
        if ch.state.Stopped? { QueuesAlone(cfg, w, c, ch.(stopRequested := false, state := Connecting, run := RunTop)); }
      case RunWakes(c) =>
        SmallChannelSteps(ch);
        QueuesAlone(cfg, w, c, ch.(writerSignal := ch.writerSignal.Resume()));
      case ConnectReturns(c, ok) =>
        ConnectedKeeps(ch, ok);
        QueuesAlone(cfg, w, c, Connected(ch, ok));
      case ReceiveRuns(c) =>
        ReceiverSteps(ch);
        QueuesAlone(cfg, w, c, if ch.state.Ready? then ch.(reader := Receiving) else EndReader(ch));
      case Transmit(c, k) =>
        WireSteps(ch, k);
        QueuesAlone(cfg, w, c, Transmitted(ch, k));
      case RedisAnswers(c, k) =>
        WireSteps(ch, k);
        QueuesAlone(cfg, w, c, Replied(ch, k));
    }
  }

  lemma LocalChannel(cfg: Config, w: World, c: nat)
    requires Inv(cfg, w) && c < |w.channels|
    ensures ChannelInv(w.channels[c])
  {
    hide Coupled, FateInv, Book, ChannelInv, SessionInv;
  }

  /** Failing a connection, then sending the channel's reader back to its top. */
  lemma FailThenTop(cfg: Config, w: World, c: nat)
    requires Inv(cfg, w) && c < |w.channels| && !w.channels[c].reader.NoReader?
    ensures var w' := FailConnection(w, c);
            && |w'.channels| == |w.channels| && Inv(cfg, SetChannel(w', c, w'.channels[c].(reader := ReceiveTop)))
            && forall more :: Inv(cfg, SetChannel(w', c, w'.channels[c].(reader := ReceiveTop, leftover := more)))
  {
    hide SessionInv, ChannelInv, FateInv, Coupled, Book, Local, FailConnection;
    FailInv(cfg, w, c);
    FailControl(w, c, c);
    var w' := FailConnection(w, c);
    LocalChannel(cfg, w', c);
    ReceiverSteps(w'.channels[c]);
    QueuesAlone(cfg, w', c, w'.channels[c].(reader := ReceiveTop));
    forall more ensures Inv(cfg, SetChannel(w', c, w'.channels[c].(reader := ReceiveTop, leftover := more))) {
      QueuesAlone(cfg, w', c, w'.channels[c].(reader := ReceiveTop, leftover := more));
    }
  }

  lemma StopInv(cfg: Config, w: World, c: nat)
    requires Inv(cfg, w) && c < |w.channels|
    ensures Inv(cfg, StepChannel(w, Stop(c)))
  {
    hide SessionInv, ChannelInv, FateInv, Coupled, Book, Local, FailConnection;
    LocalChannel(cfg, w, c);
    SmallChannelSteps(w.channels[c]);
    var w1 := SetChannel(w, c, w.channels[c].(stopRequested := true));
    QueuesAlone(cfg, w, c, w.channels[c].(stopRequested := true));
    FailInv(cfg, w1, c);
    var w' := FailConnection(w1, c);
    LocalChannel(cfg, w', c);
    SmallChannelSteps(w'.channels[c]);
    QueuesAlone(cfg, w', c, w'.channels[c].(writerSignal := w'.channels[c].writerSignal.Notify()));
  }

  lemma BatchReturnsInv(cfg: Config, w: World, c: nat, ok: bool)
    requires Inv(cfg, w) && Enabled(w, BatchReturns(c, ok))
    ensures Inv(cfg, StepChannel(w, BatchReturns(c, ok)))
  {
    hide SessionInv, ChannelInv, FateInv, Coupled, Book, Local, FailConnection;
    FailInv(cfg, w, c);
    FailControl(w, c, c);
    var w' := if ok then w else FailConnection(w, c);
    LocalChannel(cfg, w', c);
    WritingDone(w'.channels[c]);
    QueuesAlone(cfg, w', c, w'.channels[c].(run := BatchTop, unsent := []));
  }

  lemma ReceiveReturnsInv(cfg: Config, w: World, c: nat, replies: Option<nat>, more: bool)
    requires Inv(cfg, w) && Enabled(w, ReceiveReturns(c, replies, more))
    ensures Inv(cfg, StepChannel(w, ReceiveReturns(c, replies, more)))
  {
    hide SessionInv, ChannelInv, FateInv, Coupled, Book, Local, FailConnection;
    var ch := w.channels[c];
    LocalChannel(cfg, w, c);
    if ch.state.Ready? && replies.Some? {
      var k := replies.value;
      WireSteps(ch, k);
      QueuesAlone(cfg, w, c, Received(ch, k, more));
    } else {
      FailThenTop(cfg, w, c);
    }
  }

  lemma ParseRunsInv(cfg: Config, w: World, c: nat, tail: ParseTail)
    requires Inv(cfg, w) && Enabled(w, ParseRuns(c, tail))
    ensures Inv(cfg, StepChannel(w, ParseRuns(c, tail)))
  {
    hide SessionInv, ChannelInv, FateInv, Coupled, Book, Local, FailConnection, Dispatch;
    var ch := w.channels[c];
    LocalChannel(cfg, w, c);
    ReceiverSteps(ch);
    if !ch.state.Ready? {
      QueuesAlone(cfg, w, c, ch.(reader := ReceiveTop));
    } else if ch.redisIn != [] {
      DispatchInv(cfg, w, c);
    } else if tail.Incomplete? {
      QueuesAlone(cfg, w, c, ch.(reader := ReceiveTop));
    } else {
      FailThenTop(cfg, w, c);
    }
  }

  // ----- every event, every run -----

  /** Every event keeps the invariant. */
  lemma StepInv(cfg: Config, w: World, e: Event)
    requires cfg.Valid() && Inv(cfg, w) && Enabled(w, e)
    ensures Inv(cfg, Step(cfg, w, e))
  {
    hide Inv, Enabled, StepSession, StepChannel;
    match e
    case ClientArrives(a) => EnabledArrives(w, a); ArriveInv(cfg, w, a);
    case Reap => ReapInv(cfg, w);
    case ReaderRuns(a) => ReaderRunsInv(cfg, w, a);
    case ReadReturns(a, result) => ReadReturnsInv(cfg, w, a, result);
    case WriterRuns(a) => WriterInv(cfg, w, e);
    case WriteReturns(a, ok) => WriterInv(cfg, w, e);
    case WriterWakes(a) => WriterInv(cfg, w, e);
    case ReaderWakes(a) => WriterInv(cfg, w, e);
    case RunContinues(c) => RunContinuesStep(cfg, w, c);
    case Stop(c) => EnabledStop(w, c); StopInv(cfg, w, c);
    case BatchReturns(c, ok) => BatchReturnsInv(cfg, w, c, ok);
    case ReceiveReturns(c, replies, more) => ReceiveReturnsInv(cfg, w, c, replies, more);
    case ParseRuns(c, tail) => ParseRunsInv(cfg, w, c, tail);
    case _ => ChannelEventsInv(cfg, w, e);
  }

  lemma EnabledArrives(w: World, a: Addr)
    ensures Enabled(w, ClientArrives(a)) ==> a !in w.sessions
  {
  }

  lemma EnabledStop(w: World, c: nat)
    ensures Enabled(w, Stop(c)) ==> c < |w.channels|
  {
  }

  lemma RunContinuesStep(cfg: Config, w: World, c: nat)
    requires Inv(cfg, w) && Enabled(w, RunContinues(c))
    ensures Inv(cfg, StepChannel(w, RunContinues(c)))
  {
    hide Inv, RunStep;
    RunContinuesInv(cfg, w, c);
  }

  /** The invariant holds in every world of every run. */
  lemma {:induction false} RunInv(cfg: Config, ws: seq<World>, es: seq<Event>, i: nat)
    requires cfg.Valid() && Run(cfg, ws, es) && i < |ws|
    ensures Inv(cfg, ws[i])
  {
    hide Inv, Enabled, Step;
    if i == 0 {
      InitInv(cfg, ws[0]);
    } else {
      RunInv(cfg, ws, es, i - 1);
      StepInv(cfg, ws[i - 1], es[i - 1]);
    }
  }
}
