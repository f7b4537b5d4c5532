/**
 The objects run the protocol: whatever event the worker, its sockets or Redis produce, the methods
 of `Objects` take the objects' state exactly where `Proxy.Step` says.  Every statement about runs of
 the transition system is so a statement about the objects.
 */
module Refinement {
  import opened Resp
  import opened Signals
  import opened Framing
  import opened Channels
  import opened Sessions
  import opened Proxy
  import opened ProxyInv
  import opened ProxySteps
  import opened OwnerCalls
  import opened Objects

  /** Addresses held anywhere in the worker can be followed. */
  ghost predicate Linked(w: World) {
    && (forall c :: 0 <= c < |w.channels| ==> Owners(w.channels[c]) <= w.sessions.Keys)
    && (forall a :: a in w.sessions && w.sessions[a].currentBackend.Some? ==> w.sessions[a].currentBackend.value < |w.channels|)
  }

  lemma InvLinks(cfg: Config, w: World)
    requires Inv(cfg, w)
    ensures Linked(w)
  {
    hide SessionInv, ChannelInv, FateInv, Book, Owned, Owners;
    forall c, a | 0 <= c < |w.channels| && a in Owners(w.channels[c]) ensures a in w.sessions {
      OwnerIsHere(cfg, w, c, a);
    }
  }

  lemma AbortNobody(w: World)
    ensures Proxy.Abort(w, {}) == w
  {
    TellNobody(w);
    assert Noted(w.sessions, {}) == w.sessions;
  }

  lemma FinishMarked(w: World, a: Addr, s: Session)
    ensures Proxy.FinishLoop(SetSession(w, a, s), a, s) == Proxy.FinishLoop(w, a, s)
  {
    hide DetachAll, OwnedBy, Settle, EndLoop;
  }

  // ----- a session's events -----

  /** A loop of the session has exited. */
  method LoopExits(p: ProxyWorker, a: Addr, past: Past)
    requires p.Valid() && a in p.sessions
    requires past == p.sessions[a].past.(reader := past.reader, writer := past.writer)
    modifies p`fate, p`finished, p.channels, p.sessions.Values
    ensures a in old(p.View()).sessions
    ensures var s := old(p.View()).sessions[a];
            p.View() == Proxy.FinishLoop(old(p.View()), a, s.(reader := past.reader, writer := past.writer))
  {
    hide ProxyWorker.View, Proxy.FinishLoop, BackendChannel.View;
    p.At(a);
    p.sessions[a].past := past;
    p.JustSession(a);
    FinishMarked(old(p.View()), a, p.sessions[a].View());
    p.FinishLoop(a);
  }

  method RunReader(cfg: Config, p: ProxyWorker, a: Addr)
    requires p.Valid() && Linked(p.View()) && Enabled(p.View(), ReaderRuns(a))
    modifies p`fate, p`finished, p.channels, p.sessions.Values
    ensures p.View() == StepSession(cfg, old(p.View()), ReaderRuns(a))
  {
    hide ProxyWorker.View, Proxy.FinishLoop, Proxy.ReaderTurn, AwaitReplies, BackendChannel.View, ClientSession.View;
    p.Keys();
    p.At(a);
    var s := p.sessions[a];
    p.FieldsOf(s);
    if s.past.reader.Awaiting? {
      s.AwaitTurn();
      p.JustSession(a);
    } else if s.state.Open? {
      p.ReaderTurn(cfg, a);
    } else {
      LoopExits(p, a, s.past.(reader := ReaderExited));
    }
  }

  method RunWriter(cfg: Config, p: ProxyWorker, a: Addr)
    requires p.Valid() && Enabled(p.View(), WriterRuns(a))
    modifies p`fate, p`finished, p.channels, p.sessions.Values
    ensures p.View() == StepSession(cfg, old(p.View()), WriterRuns(a))
  {
    hide ProxyWorker.View, Proxy.FinishLoop, WriteTurn, BackendChannel.View;
    p.Keys();
    p.At(a);
    var s := p.sessions[a];
    if s.state.Aborted? || (s.clientOut == [] && s.state.Draining? && s.pendingReplies == 0 && s.finalError == "") {
      LoopExits(p, a, s.past.(writer := WriterExited));
    } else {
      var _ := s.WriterTurn();
      p.JustSession(a);
    }
  }

  /** `readSome` has returned to the session's reader. */
  method ReadDone(cfg: Config, p: ProxyWorker, a: Addr, result: ReadResult)
    requires p.Valid() && Enabled(p.View(), ReadReturns(a, result))
    modifies p`fate, p.channels, p.sessions.Values
    ensures p.View() == StepSession(cfg, old(p.View()), ReadReturns(a, result))
  {
    hide ProxyWorker.View, Proxy.Abort, Sessions.Feed, Sessions.HangUp, BackendChannel.View;
    p.Keys();
    p.At(a);
    var s := p.sessions[a];
    match result
    case Data(bytes) =>
      s.Feed(bytes);
      p.JustSession(a);
    case Eof =>
      s.HangUp();
      p.JustSession(a);
    case ReadError => ReadFails(cfg, p, a);
  }

  method ReadFails(cfg: Config, p: ProxyWorker, a: Addr)
    requires p.Valid() && Enabled(p.View(), ReadReturns(a, ReadError))
    modifies p`fate, p.channels, p.sessions.Values
    ensures p.View() == StepSession(cfg, old(p.View()), ReadReturns(a, ReadError))
  {
    hide ProxyWorker.View, Proxy.Abort, BackendChannel.View;
    p.Keys();
    p.At(a);
    AbortNobody(p.View());
    var s := p.sessions[a];
    if s.state.Open? { p.Abort(a); }
    p.At(a);
    label Aborted:
    s.past := s.past.(reader := ReaderTop);
    p.JustSession@Aborted(a);
  }

  /** `writeAll` has returned to the session's writer. */
  method WriteDone(cfg: Config, p: ProxyWorker, a: Addr, ok: bool)
    requires p.Valid() && Enabled(p.View(), WriteReturns(a, ok))
    modifies p`fate, p.channels, p.sessions.Values
    ensures p.View() == StepSession(cfg, old(p.View()), WriteReturns(a, ok))
  {
    hide ProxyWorker.View, Proxy.Abort, BackendChannel.View;
    p.Keys();
    AbortNobody(p.View());
    var s := p.sessions[a];
    if !ok { p.Abort(a); }
    p.At(a);
    label Aborted:
    s.past := s.past.(writer := WriterTop);
    p.JustSession@Aborted(a);
  }

  method SessionEvent(cfg: Config, p: ProxyWorker, e: Event)
    requires p.Valid() && Linked(p.View()) && Enabled(p.View(), e)
    requires e.ReaderRuns? || e.ReadReturns? || e.ReaderWakes? || e.WriterRuns? || e.WriteReturns? || e.WriterWakes?
    modifies p`fate, p`finished, p.channels, p.sessions.Values
    ensures p.View() == StepSession(cfg, old(p.View()), e)
  {
    hide ProxyWorker.View, Linked, Proxy.Abort, Proxy.FinishLoop, Proxy.ReaderTurn, BackendChannel.View;
    p.Keys();
    match e
    case ReaderRuns(a) => RunReader(cfg, p, a);
    case WriterRuns(a) => RunWriter(cfg, p, a);
    case ReadReturns(a, result) => ReadDone(cfg, p, a, result);
    case WriteReturns(a, ok) => WriteDone(cfg, p, a, ok);
    case ReaderWakes(a) =>
      p.At(a);
      p.sessions[a].replySignal := p.sessions[a].replySignal.Resume();
      p.JustSession(a);
    case WriterWakes(a) =>
      p.At(a);
      p.sessions[a].outputSignal := p.sessions[a].outputSignal.Resume();
      p.JustSession(a);
  }

  // ----- a channel's events -----

  method StopChannel(p: ProxyWorker, c: nat)
    requires p.Valid() && Linked(p.View()) && c < |p.channels|
    modifies p`fate, p.channels, p.sessions.Values
    ensures p.View() == StepChannel(old(p.View()), Stop(c))
  {
    hide ProxyWorker.View, Proxy.FailConnection;
    p.Keys();
    p.Healthy(c);
    var ch := p.channels[c];
    ch.stopRequested := true;
    p.JustChannel(c);
    p.FailConnection(c);
    p.Healthy(c);
    label Failed:
    ch.writerSignal := ch.writerSignal.Notify();
    p.JustChannel@Failed(c);
  }

  /** `writeAll` has returned to `writerLoop`. */
  method BatchDone(p: ProxyWorker, c: nat, ok: bool)
    requires p.Valid() && Linked(p.View()) && Enabled(p.View(), BatchReturns(c, ok))
    modifies p`fate, p.channels, p.sessions.Values
    ensures p.View() == StepChannel(old(p.View()), BatchReturns(c, ok))
  {
    hide ProxyWorker.View, Proxy.FailConnection, BackendChannel.View, Received;
    p.Keys();
    p.Healthy(c);
    var ch := p.channels[c];
    ch.Fields();
    if !ok { p.FailConnection(c); }
    p.Healthy(c);
    label Failed:
    ch.EndBatch();
    p.JustChannel@Failed(c);
  }

  /** `readSome` has returned to the channel's reader, with that many replies completed, or failed. */
  method ReceiveDone(p: ProxyWorker, c: nat, replies: Option<nat>, more: bool)
    requires p.Valid() && Linked(p.View()) && Enabled(p.View(), ReceiveReturns(c, replies, more))
    modifies p`fate, p.channels, p.sessions.Values
    ensures p.View() == StepChannel(old(p.View()), ReceiveReturns(c, replies, more))
  {
    hide ProxyWorker.View, Proxy.FailConnection, BackendChannel.View, Received;
    p.Keys();
    p.Healthy(c);
    var ch := p.channels[c];
    ch.Fields();
    if ch.IsHealthy() && replies.Some? {
      ch.Receive(replies.value, more);
      p.JustChannel(c);
    } else {
      p.FailConnection(c);
      p.Healthy(c);
      ch.Fields();
      label Failed:
      ch.ReadAgain(more);
      p.JustChannel@Failed(c);
    }
  }

  /** One turn of the loop over complete replies. */
  method ParseTurn(p: ProxyWorker, c: nat, tail: ParseTail)
    requires p.Valid() && Linked(p.View()) && Enabled(p.View(), ParseRuns(c, tail))
    modifies p`fate, p.channels, p.sessions.Values
    ensures p.View() == StepChannel(old(p.View()), ParseRuns(c, tail))
  {
    hide ProxyWorker.View, Proxy.FailConnection, Dispatch, BackendChannel.View, Received;
    p.Keys();
    p.Healthy(c);
    var ch := p.channels[c];
    ch.Fields();
    if ch.IsHealthy() && ch.redisIn != [] {
      p.DispatchReply(c);
    } else {
      if ch.IsHealthy() && !tail.Incomplete? { p.FailConnection(c); }
      p.Healthy(c);
      ch.Fields();
      label Failed:
      ch.ReadAgain(false);
      p.JustChannel@Failed(c);
    }
  }

  method ChannelEvent(p: ProxyWorker, e: Event)
    requires p.Valid() && Linked(p.View()) && Enabled(p.View(), e)
    requires !(e.ClientArrives? || e.Reap? || e.ReaderRuns? || e.ReadReturns? || e.ReaderWakes?
               || e.WriterRuns? || e.WriteReturns? || e.WriterWakes?)
    modifies p`fate, p.channels, p.sessions.Values
    ensures p.View() == StepChannel(old(p.View()), e)
  {
    hide ProxyWorker.View, Linked, Proxy.FailConnection, Dispatch, RunStep, Connected, EndReader, BackendChannel.View;
    hide Transmitted, Replied;
    p.Keys();
    var ch := p.channels[e.c];
    p.Healthy(e.c);
    ch.Fields();
    match e
    case Stop(c) => StopChannel(p, c);
    case BatchReturns(c, ok) => BatchDone(p, c, ok);
    case ReceiveReturns(c, replies, more) => ReceiveDone(p, c, replies, more);
    case ParseRuns(c, tail) => ParseTurn(p, c, tail);
    case Start(c) => ch.Start(); p.JustChannel(c);
    case RunContinues(c) => ch.RunTurn(); p.JustChannel(c);
    case RunWakes(c) => ch.Wake(); p.JustChannel(c);
    case ConnectReturns(c, ok) => ch.AfterConnect(ok); p.JustChannel(c);
    case ReceiveRuns(c) => ch.ReaderTurn(); p.JustChannel(c);
    case Transmit(c, k) => ch.Send(k); p.JustChannel(c);
    case RedisAnswers(c, k) => ch.Reply(k); p.JustChannel(c);
  }

  // ----- the worker -----

  method ClientJoins(p: ProxyWorker, a: Addr)
    requires p.Valid() && a !in p.sessions
    modifies p`sessions, p`nextInc
    ensures p.Valid() && fresh(p.sessions.Values - old(p.sessions.Values))
    ensures p.View() == SetSession(old(p.View()), a, NewSession(old(p.View()).nextInc)).(nextInc := old(p.View()).nextInc + 1)
  {
    hide BackendChannel.View, ClientSession.View, NewSession;
    var s := new ClientSession(p.nextInc);
    p.sessions := p.sessions[a := s];
    p.nextInc := p.nextInc + 1;
    assert p.ChannelViews() == old(p.ChannelViews());
    assert p.SessionViews() == old(p.SessionViews())[a := s.View()];
  }

  method ReapFinished(p: ProxyWorker)
    requires p.Valid()
    modifies p`sessions, p`finished
    ensures p.Valid() && p.sessions.Values <= old(p.sessions.Values)
    ensures p.View() == old(p.View()).(sessions := old(p.View()).sessions - (set a | a in old(p.View()).finished), finished := [])
  {
    hide BackendChannel.View, ClientSession.View;
    p.sessions, p.finished := p.sessions - (set a | a in p.finished), [];
    assert p.ChannelViews() == old(p.ChannelViews());
    assert p.SessionViews() == old(p.SessionViews()) - (set a | a in old(p.finished));
  }

  /** Whatever happens next, the objects do what the transition system does. */
  method Happen(cfg: Config, p: ProxyWorker, e: Event)
    requires p.Valid() && Linked(p.View()) && Enabled(p.View(), e)
    modifies p, p.channels, p.sessions.Values
    ensures p.Valid() && fresh(p.sessions.Values - old(p.sessions.Values))
    ensures p.View() == Step(cfg, old(p.View()), e)
  {
    hide ProxyWorker.View, Linked, StepSession, StepChannel, NewSession;
    p.Keys();
    if e.ClientArrives? {
      ClientJoins(p, e.a);
    } else if e.Reap? {
      ReapFinished(p);
    } else if e.ReaderRuns? || e.ReadReturns? || e.ReaderWakes? || e.WriterRuns? || e.WriteReturns? || e.WriterWakes? {
      SessionEvent(cfg, p, e);
    } else {
      ChannelEvent(p, e);
    }
  }

  lemma RunMore(cfg: Config, ws: seq<World>, es: seq<Event>, e: Event)
    requires Run(cfg, ws, es) && Enabled(ws[|es|], e)
    ensures Run(cfg, ws + [Step(cfg, ws[|es|], e)], es + [e])
  {
    hide Enabled, Step, Init;
  }

  /**
   The states of the objects form a run, and stay one: no address is ever followed to a session that
   is gone, and everything proved of runs holds of the objects.
   */
  method Continue(cfg: Config, p: ProxyWorker, e: Event, ghost ws: seq<World>, ghost es: seq<Event>)
    requires cfg.Valid() && p.Valid() && Run(cfg, ws, es) && ws[|es|] == p.View() && Enabled(p.View(), e)
    modifies p, p.channels, p.sessions.Values
    ensures p.Valid() && Run(cfg, ws + [p.View()], es + [e])
  {
    hide Run, Enabled, Step, Inv, ProxyWorker.View, Linked;
    RunShape(cfg, ws, es);
    RunInv(cfg, ws, es, |es|);
    InvLinks(cfg, p.View());
    RunMore(cfg, ws, es, e);
    Happen(cfg, p, e);
  }

  lemma RunShape(cfg: Config, ws: seq<World>, es: seq<Event>)
    requires Run(cfg, ws, es)
    ensures |ws| == |es| + 1
  {
  }

  /** A new worker is at the start of a run. */
  method Begin(cfg: Config, n: nat) returns (p: ProxyWorker)
    requires 0 < n
    ensures fresh(p) && p.Valid() && Run(cfg, [p.View()], [])
  {
    p := new ProxyWorker(n);
  }
}
