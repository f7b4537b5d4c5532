/** What one event leaves alone. */
module ProxyFrames {
  import opened Resp
  import opened Signals
  import opened Framing
  import opened Channels
  import opened Sessions
  import opened Proxy
  import opened ProxyInv
  import opened ProxySteps

  /** No fate is forgotten and no settled fate is revised. */
  predicate Grows(f: map<Tag, Fate>, f': map<Tag, Fate>) {
    && f.Keys <= f'.Keys
    && forall t :: t in f && !f[t].Outstanding? ==> f'[t] == f[t]
  }

  /** On the same connection, no batch is started, and what has gone out stays. */
  predicate Onward(h: Connection, h': Connection) { h'.popped == h.popped && h.carried <= h'.carried }

  /**
   Channels change state only by losing a ready connection and start no batch, fates only grow, finished sessions stay
   as they are, and only the session numbered `accepting` has new commands.
   */
  ghost predicate Frame(w: World, w': World, accepting: Option<nat>) {
    && |w'.channels| == |w.channels|
    && (forall c :: 0 <= c < |w.channels| ==>
          && (w'.channels[c].state == w.channels[c].state || (w.channels[c].state.Ready? && w'.channels[c].state.Closing?))
          && Onward(w.channels[c].conn, w'.channels[c].conn))
    && Grows(w.fate, w'.fate)
    && (forall t :: t in w'.fate && t !in w.fate ==> accepting == Some(t.inc))
    && (forall a :: a in w.sessions && w.sessions[a].activeLoops == 0 ==>
          a in w'.sessions && w'.sessions[a] == w.sessions[a])
  }

  function Accepting(w: World, e: Event): Option<nat> {
    if e.ReaderRuns? && e.a in w.sessions && w.sessions[e.a].state.Open? then Some(w.sessions[e.a].inc) else None
  }

  lemma FrameTransitive(w: World, w': World, w'': World, inc: Option<nat>)
    requires Frame(w, w', inc) && Frame(w', w'', inc)
    ensures Frame(w, w'', inc)
  {
  }

  lemma FrameSession(w: World, a: Addr, s: Session, inc: Option<nat>)
    requires a in w.sessions && w.sessions[a].activeLoops != 0
    ensures Frame(w, SetSession(w, a, s), inc)
  {
  }

  lemma FrameChannel(w: World, c: nat, ch: Channel, inc: Option<nat>)
    requires c < |w.channels| && ch.state == w.channels[c].state && Onward(w.channels[c].conn, ch.conn)
    ensures Frame(w, SetChannel(w, c, ch), inc)
  {
  }

  /** What a session still waits for is outstanding; aborting it settles only that. */
  lemma AbortGrows(cfg: Config, w: World, x: set<Addr>, s: set<Addr>)
    requires InvExcept(cfg, w, x)
    ensures Grows(w.fate, Abort(w, s).fate) && Abort(w, s).fate.Keys == w.fate.Keys
  {
    hide SessionInv, ChannelInv, Coupled, Owned;
    forall t | t in OwnedBy(w.channels, Live(w, s)) ensures t in w.fate && w.fate[t].Outstanding? {
      var c, a :| 0 <= c < |w.channels| && a in Live(w, s) && t in Owned(w.channels[c], a);
      OwnedWaits(cfg, w, x, c, a, t);
      assert AcceptedFate(w, x, a, t.index);
    }
  }

  lemma FrameAbort(cfg: Config, w: World, x: set<Addr>, s: set<Addr>, inc: Option<nat>)
    requires InvExcept(cfg, w, x) && forall a :: a in s && a in w.sessions ==> w.sessions[a].activeLoops != 0
    ensures Frame(w, Abort(w, s), inc)
  {
    hide Local, Coupled, FateInv, Book, OwnedBy, Grows;
    AbortGrows(cfg, w, x, s);
  }

  lemma LoseBook(w: World, c: nat)
    requires c < |w.channels|
    ensures Book(w) ==> Book(LoseConnection(w, c))
  {
    hide Owners, OwnedBy;
  }

  lemma FrameLose(cfg: Config, w: World, c: nat, inc: Option<nat>)
    requires Inv(cfg, w) && c < |w.channels| && w.channels[c].state.Ready?
    ensures Frame(w, LoseConnection(w, c), inc)
  {
    hide Local, Coupled, FateInv, Book, OwnedBy, Owners;
    forall t | t in OwnedBy([w.channels[c]], Owners(w.channels[c])) ensures t in w.fate && w.fate[t].Outstanding? {
      var a := LostTags(cfg, w, c, t);
    }
    forall a | a in w.sessions && w.sessions[a].activeLoops == 0 ensures a !in Owners(w.channels[c]) {
      if a in Owners(w.channels[c]) { OwnerIsHere(cfg, w, c, a); }
    }
  }

  lemma FrameFail(cfg: Config, w: World, c: nat, inc: Option<nat>)
    requires Inv(cfg, w) && c < |w.channels|
    ensures Frame(w, FailConnection(w, c), inc)
  {
    hide Local, Coupled, FateInv, Book, Owners, Frame, Abort, LoseConnection;
    if w.channels[c].state.Ready? {
      var w1, owners := LoseConnection(w, c), Owners(w.channels[c]);
      FrameLose(cfg, w, c, inc);
      LoseLocal(cfg, w, c);
      LoseCoupled(cfg, w, c);
      LoseFate(cfg, w, c);
      LoseBook(w, c);
      LostStillRun(cfg, w, c);
      FrameAbort(cfg, w1, owners, owners, inc);
      FrameTransitive(w, w1, Abort(w1, owners), inc);
    } else {
      FrameSelf(w, inc);
    }
  }

  lemma LostStillRun(cfg: Config, w: World, c: nat)
    requires Inv(cfg, w) && c < |w.channels|
    ensures var w1 := LoseConnection(w, c);
            forall a :: a in Owners(w.channels[c]) && a in w1.sessions ==> w1.sessions[a].activeLoops != 0
  {
    hide Local, Coupled, FateInv, Book, Owners, OwnedBy;
    forall a | a in Owners(w.channels[c]) ensures a in w.sessions && w.sessions[a].activeLoops != 0 {
      OwnerIsHere(cfg, w, c, a);
    }
  }

  lemma FrameSelf(w: World, inc: Option<nat>)
    ensures Frame(w, w, inc)
  {
  }

  lemma FrameFinish(cfg: Config, w: World, a: Addr, s: Session, inc: Option<nat>)
    requires Inv(cfg, w) && a in w.sessions && w.sessions[a].activeLoops > 0
    requires s.activeLoops == 1 ==> w.sessions[a].pendingReplies == 0
    ensures Frame(w, FinishLoop(w, a, s), inc)
  {
    hide SessionInv, ChannelInv, Coupled, FateInv, Book, OwnedBy, Detach;
    if s.activeLoops == 1 {
      FinishDetachesNothing(cfg, w, a);
      assert Settle(w.fate, {}, Discarded) == w.fate;
    }
  }

  lemma FrameDispatch(cfg: Config, w: World, c: nat, inc: Option<nat>)
    requires Inv(cfg, w) && c < |w.channels| && w.channels[c].state.Ready? && w.channels[c].redisIn != []
    ensures Frame(w, Dispatch(w, c), inc)
  {
    hide SessionInv, ChannelInv, Coupled, Book, Orphan, Answered, FailConnection, FateKnown, FateWaits, FateOrphans;
    DispatchTarget(cfg, w, c);
    AnsweredControl(w.channels[c]);
    var owner := w.channels[c].pendingQueue[0].owner;
    if owner.Some? {
      var s := w.sessions[owner.value];
      SessionParts(cfg, s);
      assert AcceptedFate(w, {}, owner.value, |s.queued|);
    }
  }

  lemma AnsweredControl(ch: Channel)
    requires ch.pendingQueue != [] && ch.redisIn != []
    ensures Answered(ch).state == ch.state && Answered(ch).conn == ch.conn
  {
  }

  lemma FrameSubmit(cfg: Config, w: World, a: Addr, c: nat, rs: seq<Request>)
    requires Inv(cfg, w) && a in w.sessions && c < |w.channels| && w.sessions[a].activeLoops != 0
    requires |FrameBytes(rs)| <= |w.sessions[a].clientIn|
    ensures Frame(w, SubmitBatch(w, a, c, rs), Some(w.sessions[a].inc))
  {
    hide Local, Coupled, Book, FrameBytes;
    var s := w.sessions[a];
    var tags := Range(s.inc, |s.requests|, |rs|);
    forall t | t in TagSet(tags) ensures t !in w.fate && t.inc == s.inc {
    }
  }

  lemma FrameReaderTurn(cfg: Config, w: World, a: Addr)
    requires cfg.Valid() && Inv(cfg, w) && a in w.sessions && w.sessions[a].reader.ReaderTop? && w.sessions[a].state.Open?
    ensures Frame(w, ReaderTurn(cfg, w, a), Some(w.sessions[a].inc))
  {
    hide SessionInv, ChannelInv, FateInv, Coupled, Book, FrameBytes, Judged, Scan, Frame, Abort, LeastLoaded;
    var s := w.sessions[a];
    var inc := Some(s.inc);
    LoopsLeft(cfg, s);
    var (rs, stop) := Scan(cfg, s.clientIn, cfg.pipeline);
    ScanSound(cfg, s.clientIn, cfg.pipeline);
    if rs == [] {
      NothingTaken(s.clientIn);
      FrameSession(w, a, AfterScan(s, stop), inc);
    } else {
      var choice := Select(w.channels, s.currentBackend);
      if choice.None? {
        var w' := Abort(w, {a});
        FrameAbort(cfg, w, {}, {a}, inc);
        AbortRuns(w, {a}, a);
        var s' := w'.sessions[a].(clientIn := s.clientIn[|FrameBytes(rs)|..]);
        FrameSession(w', a, s', inc);
        FrameTransitive(w, w', SetSession(w', a, s'), inc);
      } else {
        var w' := SubmitBatch(w, a, choice.value, rs);
        FrameSubmit(cfg, w, a, choice.value, rs);
        FrameSession(w', a, AfterScan(w'.sessions[a], stop), inc);
        FrameTransitive(w, w', SetSession(w', a, AfterScan(w'.sessions[a], stop)), inc);
      }
    }
  }

  lemma AbortRuns(w: World, s: set<Addr>, a: Addr)
    requires a in w.sessions
    ensures a in Abort(w, s).sessions && Abort(w, s).sessions[a].activeLoops == w.sessions[a].activeLoops
  {
  }

  lemma FrameAbortThen(cfg: Config, w: World, s: set<Addr>, a: Addr, f: Session -> Session, inc: Option<nat>)
    requires Inv(cfg, w) && a in w.sessions && w.sessions[a].activeLoops != 0 && s <= {a}
    ensures var w' := Abort(w, s); a in w'.sessions && Frame(w, SetSession(w', a, f(w'.sessions[a])), inc)
  {
    hide Inv, Abort, Frame;
    var w' := Abort(w, s);
    assert InvExcept(cfg, w, {}) by { InvIsExcept(cfg, w); }
    FrameAbort(cfg, w, {}, s, inc);
    AbortRuns(w, s, a);
    FrameSession(w', a, f(w'.sessions[a]), inc);
    FrameTransitive(w, w', SetSession(w', a, f(w'.sessions[a])), inc);
  }

  lemma InvIsExcept(cfg: Config, w: World)
    requires Inv(cfg, w)
    ensures InvExcept(cfg, w, {})
  {
  }

  lemma FrameSessionEvent(cfg: Config, w: World, e: Event)
    requires cfg.Valid() && Inv(cfg, w) && Enabled(w, e)
    requires e.ReaderRuns? || e.ReadReturns? || e.ReaderWakes? || e.WriterRuns? || e.WriteReturns? || e.WriterWakes?
    ensures Frame(w, StepSession(cfg, w, e), Accepting(w, e))
  {
    hide SessionInv, ChannelInv, FateInv, Coupled, Book, Scan, Frame, Abort, ReaderTurn;
    var a := e.a;
    var s := w.sessions[a];
    var inc := Accepting(w, e);
    LoopsLeft(cfg, s);
    AwakeParts(cfg, s);
    match e {
      case ReaderRuns(_) =>
        if s.reader.Awaiting? { FrameSession(w, a, AwaitReplies(s), inc); }
        else if s.state.Open? { FrameReaderTurn(cfg, w, a); }
        else { FrameFinish(cfg, w, a, s.(reader := ReaderExited), inc); }
      case ReadReturns(_, Data(bytes)) => FrameSession(w, a, Feed(s, bytes), inc);
      case ReadReturns(_, Eof) => FrameSession(w, a, HangUp(s), inc);
      case ReadReturns(_, ReadError) =>
        FrameAbortThen(cfg, w, if s.state.Open? then {a} else {}, a, (x: Session) => x.(reader := ReaderTop), inc);
      case ReaderWakes(_) => FrameSession(w, a, s.(replySignal := s.replySignal.Resume()), inc);
      case WriterRuns(_) =>
        if WriterDone(s) { FrameFinish(cfg, w, a, s.(writer := WriterExited), inc); }
        else { FrameSession(w, a, WriteTurn(s), inc); }
      case WriteReturns(_, ok) =>
        FrameAbortThen(cfg, w, if ok then {} else {a}, a, (x: Session) => x.(writer := WriterTop), inc);
      case WriterWakes(_) => FrameSession(w, a, s.(outputSignal := s.outputSignal.Resume()), inc);
    }
  }

  lemma AwakeParts(cfg: Config, s: Session)
    requires SessionInv(cfg, s)
    ensures SessionAwake(s)
  {
  }

  lemma FrameFailThen(cfg: Config, w: World, w0: World, c: nat, f: Channel -> Channel, inc: Option<nat>)
    requires Inv(cfg, w) && c < |w.channels| && Frame(w0, w, inc)
    requires forall ch :: f(ch).state == ch.state && f(ch).conn == ch.conn
    ensures var w' := FailConnection(w, c);
            c < |w'.channels| && Frame(w0, SetChannel(w', c, f(w'.channels[c])), inc)
  {
    hide Inv, FailConnection, Frame;
    var w' := FailConnection(w, c);
    FrameFail(cfg, w, c, inc);
    FailControl(w, c, c);
    FrameChannel(w', c, f(w'.channels[c]), inc);
    FrameTransitive(w, w', SetChannel(w', c, f(w'.channels[c])), inc);
    FrameTransitive(w0, w, SetChannel(w', c, f(w'.channels[c])), inc);
  }

  lemma FrameChannelEvent(cfg: Config, w: World, e: Event)
    requires Inv(cfg, w) && Enabled(w, e)
    requires e.Stop? || e.RunWakes? || e.BatchReturns? || e.ReceiveRuns? || e.ReceiveReturns? || e.ParseRuns?
             || e.Transmit? || e.RedisAnswers?
    ensures Frame(w, StepChannel(w, e), None)
  {
    hide Inv, Frame, FailConnection, Dispatch;
    var c := e.c;
    var ch := w.channels[c];
    FrameSelf(w, None);
    match e {
      case Stop(_) =>
        var w1 := SetChannel(w, c, ch.(stopRequested := true));
        FrameChannel(w, c, ch.(stopRequested := true), None);
        LocalChannel(cfg, w, c);
        SmallChannelSteps(ch);
        QueuesAlone(cfg, w, c, ch.(stopRequested := true));
        FrameFailThen(cfg, w1, w, c, (x: Channel) => x.(writerSignal := x.writerSignal.Notify()), None);
      case RunWakes(_) => FrameChannel(w, c, ch.(writerSignal := ch.writerSignal.Resume()), None);
      case BatchReturns(_, ok) =>
        if ok { FrameChannel(w, c, ch.(run := BatchTop, unsent := []), None); }
        else { FrameFailThen(cfg, w, w, c, (x: Channel) => x.(run := BatchTop, unsent := []), None); }
      case ReceiveRuns(_) => FrameChannel(w, c, if ch.state.Ready? then ch.(reader := Receiving) else EndReader(ch), None);
      case ReceiveReturns(_, replies, more) =>
        if ch.state.Ready? && replies.Some? { FrameChannel(w, c, Received(ch, replies.value, more), None); }
        else { FrameFailThen(cfg, w, w, c, (x: Channel) => x.(reader := ReceiveTop, leftover := x.leftover || more), None); }
      case ParseRuns(_, tail) =>
        if !ch.state.Ready? { FrameChannel(w, c, ch.(reader := ReceiveTop), None); }
        else if ch.redisIn != [] { FrameDispatch(cfg, w, c, None); }
        else if tail.Incomplete? { FrameChannel(w, c, ch.(reader := ReceiveTop), None); }
        else { FrameFailThen(cfg, w, w, c, (x: Channel) => x.(reader := ReceiveTop), None); }
      case Transmit(_, k) => FrameChannel(w, c, Transmitted(ch, k), None);
      case RedisAnswers(_, k) => FrameChannel(w, c, Replied(ch, k), None);
    }
  }

  /** Every event but arrivals, removals and the opening of connections. */
  lemma StepFrame(cfg: Config, w: World, e: Event)
    requires cfg.Valid() && Inv(cfg, w) && Enabled(w, e)
    requires !(e.ClientArrives? || e.Reap? || e.Start? || e.RunContinues? || e.ConnectReturns?)
    ensures Frame(w, Step(cfg, w, e), Accepting(w, e))
  {
    hide Inv, Enabled, StepSession, StepChannel, Frame;
    if e.ReaderRuns? || e.ReadReturns? || e.ReaderWakes? || e.WriterRuns? || e.WriteReturns? || e.WriterWakes? {
      FrameSessionEvent(cfg, w, e);
    } else {
      FrameChannelEvent(cfg, w, e);
    }
  }
}
