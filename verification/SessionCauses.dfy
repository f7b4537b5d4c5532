/** Why a session changes: over whole runs, the events that feed, answer, drain, abort and end it, and no others. */
module SessionCauses {
  import opened Resp
  import opened Signals
  import opened Framing
  import opened Channels
  import opened Sessions
  import opened Proxy
  import opened ProxyInv
  import opened ProxySteps
  import opened ChannelCauses
  import Theorems

  // ----- what others do to a session -----

  /** The event gives up a connection on which the session at `a` waits. */
  predicate Loses(w: World, e: Event, a: Addr) {
    && IsChannelEvent(e) && e.c < |w.channels| && w.channels[e.c].state.Ready?
    && Breaks(w.channels[e.c], e, e.c) && a in Owners(w.channels[e.c])
  }

  /** The event brings the session at `a` a reply. */
  predicate Answers(w: World, e: Event, a: Addr) {
    && e.ParseRuns? && e.c < |w.channels| && w.channels[e.c].state.Ready? && w.channels[e.c].redisIn != []
    && w.channels[e.c].pendingQueue != [] && w.channels[e.c].pendingQueue[0].owner == Some(a)
  }

  /** The event is the session's own. */
  predicate Own(e: Event, a: Addr) { IsSessionEvent(e) && e.a == a }

  lemma FailSession(w: World, c: nat, a: Addr)
    requires c < |w.channels| && a in w.sessions && (a in Owners(w.channels[c]) ==> !w.sessions[a].state.Aborted?)
    ensures var w', s := FailConnection(w, c), w.sessions[a];
            && a in w'.sessions
            && w'.sessions[a] == (if w.channels[c].state.Ready? && a in Owners(w.channels[c])
                                  then AbortSession(s.(failures := s.failures + 1)) else s)
  {
    hide Owners, OwnedBy, DetachAll, AbortSession;
  }

  lemma OwnersLive(cfg: Config, w: World, c: nat, a: Addr)
    requires Inv(cfg, w) && c < |w.channels| && a in Owners(w.channels[c])
    ensures a in w.sessions && !w.sessions[a].state.Aborted?
  {
    hide Local, Coupled, FateInv, Book, Owners;
    OwnerIsHere(cfg, w, c, a);
  }

  lemma DispatchSession(cfg: Config, w: World, c: nat, a: Addr)
    requires Inv(cfg, w) && c < |w.channels| && a in w.sessions && w.channels[c].state.Ready? && w.channels[c].redisIn != []
    ensures w.channels[c].pendingQueue != [] && a in Dispatch(w, c).sessions
    ensures Dispatch(w, c).sessions[a]
            == (if w.channels[c].pendingQueue[0].owner == Some(a) then OnBackendReply(w.sessions[a], w.channels[c].redisIn[0])
                else w.sessions[a])
  {
    hide SessionInv, ChannelInv, FateInv, Book, Coupled, FailConnection, Answered, OnBackendReply;
    DispatchTarget(cfg, w, c);
  }

  /** What an event of a channel has done to the session at `a`. */
  predicate Told(w: World, e: Event, w': World, a: Addr)
    requires a in w.sessions
  {
    var s := w.sessions[a];
    && a in w'.sessions
    && w'.sessions[a] == (if Loses(w, e, a) then AbortSession(s.(failures := s.failures + 1))
                          else if Answers(w, e, a) then OnBackendReply(s, w.channels[e.c].redisIn[0]) else s)
  }

  lemma BreakingTells(cfg: Config, w: World, e: Event, a: Addr)
    requires Inv(cfg, w) && Enabled(w, e) && (e.Stop? || e.BatchReturns? || e.ReceiveReturns?) && a in w.sessions
    ensures Told(w, e, StepChannel(w, e), a)
  {
    hide Inv, FailConnection, Owners, AbortSession;
    var c := e.c;
    if a in Owners(w.channels[c]) { OwnersLive(cfg, w, c, a); }
    FailSession(w, c, a);
    if e.Stop? {
      SameOwners(w.channels[c]);
      FailSession(SetChannel(w, c, w.channels[c].(stopRequested := true)), c, a);
    }
  }

  lemma ParsingTells(cfg: Config, w: World, e: Event, a: Addr)
    requires Inv(cfg, w) && Enabled(w, e) && e.ParseRuns? && a in w.sessions
    ensures Told(w, e, StepChannel(w, e), a)
  {
    hide Inv, FailConnection, Dispatch, Owners, OnBackendReply, AbortSession;
    var c := e.c;
    if a in Owners(w.channels[c]) { OwnersLive(cfg, w, c, a); }
    FailSession(w, c, a);
    if w.channels[c].state.Ready? && w.channels[c].redisIn != [] { DispatchSession(cfg, w, c, a); }
  }

  lemma ChannelEventSession(cfg: Config, w: World, e: Event, a: Addr)
    requires Inv(cfg, w) && Enabled(w, e) && IsChannelEvent(e) && a in w.sessions
    ensures Told(w, e, StepChannel(w, e), a)
  {
    if e.Stop? || e.BatchReturns? || e.ReceiveReturns? {
      hide *;
      BreakingTells(cfg, w, e, a);
    } else if e.ParseRuns? {
      hide *;
      ParsingTells(cfg, w, e, a);
    } else {
      hide Inv, Owners, OnBackendReply, AbortSession, RunStep, FailConnection, Dispatch;
    }
  }

  lemma SameOwners(ch: Channel)
    ensures Owners(ch.(stopRequested := true)) == Owners(ch)
  {
  }

  lemma OthersTurn(cfg: Config, w: World, b: Addr, a: Addr)
    requires b in w.sessions && w.sessions[b].reader.ReaderTop? && w.sessions[b].state.Open? && a in w.sessions && a != b
    ensures a in ReaderTurn(cfg, w, b).sessions && ReaderTurn(cfg, w, b).sessions[a] == w.sessions[a]
  {
    hide Scan, FrameBytes, LeastLoaded, OwnedBy, DetachAll;
    ScanSound(cfg, w.sessions[b].clientIn, cfg.pipeline);
  }

  lemma OtherSession(cfg: Config, w: World, e: Event, a: Addr)
    requires Enabled(w, e) && IsSessionEvent(e) && a in w.sessions && e.a != a
    ensures a in StepSession(cfg, w, e).sessions && StepSession(cfg, w, e).sessions[a] == w.sessions[a]
  {
    hide ReaderTurn, OwnedBy, DetachAll;
    if e.ReaderRuns? && w.sessions[e.a].reader.ReaderTop? && w.sessions[e.a].state.Open? { OthersTurn(cfg, w, e.a, a); }
  }

  /** What happens to a session on an event that is not its own. */
  lemma Bystander(cfg: Config, ws: seq<World>, es: seq<Event>, n: nat, a: Addr)
    requires cfg.Valid() && Run(cfg, ws, es) && n < |es| && a in ws[n].sessions && !Own(es[n], a)
    ensures n + 1 < |ws| && Inv(cfg, ws[n]) && Enabled(ws[n], es[n])
    ensures a in ws[n + 1].sessions <==> !(es[n].Reap? && a in ws[n].finished)
    ensures a in ws[n + 1].sessions ==> Told(ws[n], es[n], ws[n + 1], a)
  {
    hide Inv, StepSession, StepChannel, OnBackendReply, AbortSession, Owners;
    var w, e := ws[n], es[n];
    RunInv(cfg, ws, es, n);
    if IsSessionEvent(e) { OtherSession(cfg, w, e, a); }
    else if IsChannelEvent(e) { ChannelEventSession(cfg, w, e, a); }
  }

  // ----- what a session does itself -----

  /** The turn of an open session's reader, which also submits; every other own event changes the session alone. */
  predicate Scans(s: Session, e: Event) { e.ReaderRuns? && s.reader.ReaderTop? && s.state.Open? }

  /** Where an own event other than that turn leaves a session. */
  function Turned(s: Session, e: Event): Session
    requires IsSessionEvent(e)
  {
    match e
    case ReaderRuns(_) => if s.reader.Awaiting? then AwaitReplies(s) else EndLoop(s.(reader := ReaderExited))
    case ReadReturns(_, Data(bytes)) => Feed(s, bytes)
    case ReadReturns(_, Eof) => HangUp(s)
    case ReadReturns(_, ReadError) => (if s.state.Open? then AbortSession(s) else s).(reader := ReaderTop)
    case ReaderWakes(_) => s.(replySignal := Signal(false, Running))
    case WriterRuns(_) => if WriterDone(s) then EndLoop(s.(writer := WriterExited)) else WriteTurn(s)
    case WriteReturns(_, ok) => (if ok || s.state.Aborted? then s else AbortSession(s)).(writer := WriterTop)
    case WriterWakes(_) => s.(outputSignal := Signal(false, Running))
    case _ => s
  }

  lemma OwnEvent(cfg: Config, w: World, e: Event)
    requires Enabled(w, e) && IsSessionEvent(e) && !Scans(w.sessions[e.a], e)
    ensures var w' := StepSession(cfg, w, e); e.a in w'.sessions && w'.sessions[e.a] == Turned(w.sessions[e.a], e)
  {
    hide ReaderTurn, OwnedBy, DetachAll, AwaitReplies, Feed, HangUp, WriteTurn, EndLoop, WriterDone, AbortSession;
  }

  /** The first `k` requests are accepted ones, within the budget, and the next is not one of those. */
  predicate Leading(q: seq<Request>, budget: nat, k: nat) {
    && k <= budget && k <= |q| && (forall i :: 0 <= i < k ==> q[i].Accept?)
    && (k == budget || k == |q| || !q[k].Accept?)
  }

  /** What a scan finds is the head of what the input says. */
  lemma {:induction false} ScanReads(cfg: Config, s: Bytes, budget: nat)
    ensures var (rs, stop) := Scan(cfg, s, budget);
            var q := Classify(cfg, s, false);
            && |rs| <= |q| && rs == q[..|rs|] && Leading(q, budget, |rs|)
            && (stop.OutOfBudget? <==> |rs| == budget)
            && (stop.Starved? <==> |rs| < budget && |rs| == |q|)
            && (stop.Refused? ==> |rs| < |q| && q[|rs|] == Reject(stop.frame, stop.message))
            && (stop.Broken? ==> |rs| < |q| && q[|rs|] == Fatal(PROTOCOL_ERROR))
    decreases budget
  {
    hide Peek, Complaint;
    var p := Peek(cfg, s);
    if budget > 0 && p.Command? && Judge(cfg, s[..p.consumed], p).Accept? {
      var (rs, stop) := Scan(cfg, s[p.consumed..], budget - 1);
      ScanReads(cfg, s[p.consumed..], budget - 1);
      var q, all := Classify(cfg, s[p.consumed..], false), Classify(cfg, s, false);
      assert all[1..] == q;
      assert forall i :: 0 < i < |all| ==> all[i] == q[i - 1];
    }
  }

  /** What the reader has in its buffer, read as requests. */
  function Buffered(cfg: Config, s: Session): seq<Request> { Classify(cfg, s.clientIn, false) }

  /** A batch would be accepted by some channel. */
  ghost predicate Served(w: World, s: Session) {
    s.pendingReplies > 0 || exists c :: 0 <= c < |w.channels| && w.channels[c].state.Ready?
  }

  lemma LeadingOnce(q: seq<Request>, budget: nat, k: nat, l: nat)
    requires Leading(q, budget, k) && Leading(q, budget, l)
    ensures k == l
  {
  }

  /** The reader has taken `k` accepted requests and what stopped it, and goes where that sends it. */
  predicate TookTurn(cfg: Config, s: Session, s': Session, k: nat)
    requires k <= |Buffered(cfg, s)|
  {
    var q := Buffered(cfg, s);
    var stopped := k < cfg.pipeline && k < |q|;
    && s'.requests == s.requests + (if stopped then q[..k + 1] else q[..k])
    && s'.pendingReplies == s.pendingReplies + k
    && s'.state == (if stopped && q[k].Fatal? then Draining else Open)
    && s'.reader == (if stopped then (if q[k].Reject? then Awaiting(q[k].message) else ReaderTop)
                     else if k == cfg.pipeline && s'.clientIn != [] then ReaderTop else Reading)
    && s'.finalError == (if stopped && q[k].Fatal? then q[k].message else s.finalError)
  }

  lemma AfterScanTook(cfg: Config, s: Session, s1: Session, k: nat, stop: Stop)
    requires s.state.Open? && s.reader.ReaderTop? && s1.state.Open? && s1.reader.ReaderTop? && Leading(Buffered(cfg, s), cfg.pipeline, k)
    requires var q := Buffered(cfg, s);
             && s1.requests == s.requests + q[..k] && s1.pendingReplies == s.pendingReplies + k && s1.finalError == s.finalError
             && (stop.OutOfBudget? <==> k == cfg.pipeline)
             && (stop.Starved? <==> k < cfg.pipeline && k == |q|)
             && (stop.Refused? ==> k < |q| && q[k] == Reject(stop.frame, stop.message))
             && (stop.Broken? ==> k < |q| && q[k] == Fatal(PROTOCOL_ERROR))
             && (stop.Refused? ==> |stop.frame| <= |s1.clientIn|)
    ensures TookTurn(cfg, s, AfterScan(s1, stop), k)
  {
    hide Classify;
    var q := Buffered(cfg, s);
    if k < |q| { assert q[..k + 1] == q[..k] + [q[k]]; }
  }

  /** The reader's turn on the session itself. */
  lemma TurnTakes(cfg: Config, w: World, a: Addr, k: nat)
    requires a in w.sessions && w.sessions[a].reader.ReaderTop? && w.sessions[a].state.Open?
    requires Leading(Buffered(cfg, w.sessions[a]), cfg.pipeline, k)
    requires k == 0 || Select(w.channels, w.sessions[a].currentBackend).Some?
    ensures var w' := ReaderTurn(cfg, w, a); a in w'.sessions && TookTurn(cfg, w.sessions[a], w'.sessions[a], k)
  {
    hide Scan, FrameBytes, LeastLoaded, Classify, TookTurn, AfterScan, Submit;
    var s := w.sessions[a];
    var (rs, stop) := Scan(cfg, s.clientIn, cfg.pipeline);
    ScanSound(cfg, s.clientIn, cfg.pipeline);
    ScanReads(cfg, s.clientIn, cfg.pipeline);
    LeadingOnce(Buffered(cfg, s), cfg.pipeline, k, |rs|);
    if rs == [] {
      NothingTaken(s.clientIn);
      AfterScanTook(cfg, s, s, k, stop);
    } else {
      AfterScanTook(cfg, s, Take(s, rs, Select(w.channels, s.currentBackend).value), k, stop);
    }
  }

  lemma TurnRefused(cfg: Config, w: World, a: Addr, k: nat)
    requires a in w.sessions && w.sessions[a].reader.ReaderTop? && w.sessions[a].state.Open?
    requires Leading(Buffered(cfg, w.sessions[a]), cfg.pipeline, k) && k > 0
    requires Select(w.channels, w.sessions[a].currentBackend).None?
    ensures var w' := ReaderTurn(cfg, w, a);
            a in w'.sessions && w'.sessions[a].state.Aborted? && w'.sessions[a].reader.ReaderTop?
  {
    hide Scan, FrameBytes, LeastLoaded, Classify, AfterScan, OwnedBy, DetachAll;
    var s := w.sessions[a];
    ScanReads(cfg, s.clientIn, cfg.pipeline);
    LeadingOnce(Buffered(cfg, s), cfg.pipeline, k, |Scan(cfg, s.clientIn, cfg.pipeline).0|);
  }

  // ----- one step of a run -----

  lemma OwnStep(cfg: Config, ws: seq<World>, es: seq<Event>, n: nat, a: Addr)
    requires cfg.Valid() && Run(cfg, ws, es) && n < |es| && Own(es[n], a)
    ensures n + 1 < |ws| && Enabled(ws[n], es[n]) && a in ws[n].sessions && SessionInv(cfg, ws[n].sessions[a])
    ensures a in ws[n + 1].sessions
    ensures !Scans(ws[n].sessions[a], es[n]) ==> ws[n + 1].sessions[a] == Turned(ws[n].sessions[a], es[n])
  {
    hide Inv, StepChannel, StepSession, Turned, SessionInv;
    var w, e := ws[n], es[n];
    RunInv(cfg, ws, es, n);
    Theorems.LocalSession(cfg, w, a);
    if !Scans(w.sessions[a], e) {
      OwnEvent(cfg, w, e);
    } else {
      IsTurn(cfg, w, e);
      TurnStays(cfg, w, a);
    }
  }

  lemma IsTurn(cfg: Config, w: World, e: Event)
    requires Enabled(w, e) && e.ReaderRuns? && Scans(w.sessions[e.a], e)
    ensures StepSession(cfg, w, e) == ReaderTurn(cfg, w, e.a)
  {
    hide ReaderTurn;
  }

  lemma TurnStays(cfg: Config, w: World, a: Addr)
    requires a in w.sessions && w.sessions[a].reader.ReaderTop? && w.sessions[a].state.Open?
    ensures a in ReaderTurn(cfg, w, a).sessions
  {
    hide Scan, FrameBytes, LeastLoaded, AfterScan, Abort;
    ScanSound(cfg, w.sessions[a].clientIn, cfg.pipeline);
  }

  /**
   A turn of an open session's reader takes, in one go, the accepted requests at the head of its buffer, up
   to its budget, and with them what stops it: a refused command to be answered in turn, or a broken frame,
   after which it drains.  If nothing stops it, it asks the client for more, or carries on if only the
   budget held it up.  Without a channel to send the batch to, the session is aborted instead.
   */
  lemma ReaderTurnTakes(cfg: Config, ws: seq<World>, es: seq<Event>, n: nat, a: Addr, k: nat)
    requires cfg.Valid() && Run(cfg, ws, es) && n < |es| && es[n] == ReaderRuns(a) && a in ws[n].sessions
    requires ws[n].sessions[a].reader.ReaderTop? && ws[n].sessions[a].state.Open?
    requires Leading(Buffered(cfg, ws[n].sessions[a]), cfg.pipeline, k)
    ensures a in ws[n + 1].sessions
    ensures if k > 0 && !Served(ws[n], ws[n].sessions[a]) then ws[n + 1].sessions[a].state.Aborted?
            else TookTurn(cfg, ws[n].sessions[a], ws[n + 1].sessions[a], k)
  {
    hide Inv, StepChannel, StepSession, ReaderTurn, Classify, TookTurn, Leading, Select;
    var w, e := ws[n], es[n];
    IsTurn(cfg, w, e);
    Theorems.RefusedOnlyWithoutBackends(cfg, ws, es, n, a);
    Theorems.CountersMatchQueues(cfg, ws, es, n, 0, a) by { SomeChannel(cfg, ws, es, n); }
    if k > 0 && Select(w.channels, w.sessions[a].currentBackend).None? { TurnRefused(cfg, w, a, k); }
    else { TurnTakes(cfg, w, a, k); }
  }

  lemma {:induction false} SomeChannel(cfg: Config, ws: seq<World>, es: seq<Event>, n: nat)
    requires cfg.Valid() && Run(cfg, ws, es) && n < |ws|
    ensures |ws[n].channels| > 0
    decreases n
  {
    hide Inv, StepChannel, StepSession;
    if n > 0 {
      SomeChannel(cfg, ws, es, n - 1);
      StepControl(cfg, ws, es, n - 1, 0);
    }
  }

  lemma LeadingExists(cfg: Config, s: Session) returns (k: nat)
    requires cfg.Valid()
    ensures Leading(Buffered(cfg, s), cfg.pipeline, k)
    ensures k > 0 <==> Buffered(cfg, s) != [] && Buffered(cfg, s)[0].Accept?
  {
    hide Scan, Classify;
    ScanReads(cfg, s.clientIn, cfg.pipeline);
    k := |Scan(cfg, s.clientIn, cfg.pipeline).0|;
  }

  // ----- theorems -----

  /** A channel on which the session at `a` waits loses its connection. */
  ghost predicate LosesItsChannel(w: World, w': World, a: Addr) {
    exists c :: 0 <= c < |w.channels| && c < |w'.channels| && a in Owners(w.channels[c])
                && w.channels[c].state.Ready? && !w'.channels[c].state.Ready?
  }

  lemma LosesIff(cfg: Config, ws: seq<World>, es: seq<Event>, n: nat, a: Addr)
    requires cfg.Valid() && Run(cfg, ws, es) && n < |es|
    ensures n + 1 < |ws| && (Loses(ws[n], es[n], a) <==> LosesItsChannel(ws[n], ws[n + 1], a))
  {
    hide Run, Owners;
    RunLength(cfg, ws, es);
    var w, w', e := ws[n], ws[n + 1], es[n];
    if Loses(w, e, a) { ConnectionLostIff(cfg, ws, es, n, e.c); }
    if c :| 0 <= c < |w.channels| && c < |w'.channels| && a in Owners(w.channels[c])
            && w.channels[c].state.Ready? && !w'.channels[c].state.Ready?
    {
      ConnectionLostIff(cfg, ws, es, n, c);
    }
  }

  lemma RunLength(cfg: Config, ws: seq<World>, es: seq<Event>)
    requires Run(cfg, ws, es)
    ensures |ws| == |es| + 1
  {
  }

  /**
   A session is aborted exactly when a write to its client fails, a read from it fails while it is open, its
   reader has a batch and there is no channel to take it, or a channel it waits on loses its connection.
   */
  lemma AbortedIff(cfg: Config, ws: seq<World>, es: seq<Event>, n: nat, a: Addr)
    requires cfg.Valid() && Run(cfg, ws, es) && n < |es|
    requires a in ws[n].sessions && a in ws[n + 1].sessions && !ws[n].sessions[a].state.Aborted?
    ensures var w, w', e, s := ws[n], ws[n + 1], es[n], ws[n].sessions[a];
            w'.sessions[a].state.Aborted?
            <==> || e == WriteReturns(a, false)
                 || (e == ReadReturns(a, ReadError) && s.state.Open?)
                 || (e == ReaderRuns(a) && s.reader.ReaderTop? && s.state.Open?
                     && Buffered(cfg, s) != [] && Buffered(cfg, s)[0].Accept?
                     && s.pendingReplies == 0 && forall c :: 0 <= c < |w.channels| ==> !w.channels[c].state.Ready?)
                 || LosesItsChannel(w, w', a)
  {
    hide Run, Inv, SessionInv, Classify, Owners, LosesItsChannel, Enabled;
    RunLength(cfg, ws, es);
    var w, e, s := ws[n], es[n], ws[n].sessions[a];
    LosesIff(cfg, ws, es, n, a);
    if Own(e, a) {
      OwnStep(cfg, ws, es, n, a);
      if Scans(s, e) {
        var k := LeadingExists(cfg, s);
        ReaderTurnTakes(cfg, ws, es, n, a, k);
        CountOf(cfg, s);
      }
    } else {
      Bystander(cfg, ws, es, n, a);
    }
  }

  lemma CountOf(cfg: Config, s: Session)
    requires SessionInv(cfg, s)
    ensures s.pendingReplies >= 0
  {
  }

  /** It stops reading, to answer what is left, exactly when the client closes or its reader comes to a broken frame. */
  lemma DrainsIff(cfg: Config, ws: seq<World>, es: seq<Event>, n: nat, a: Addr, k: nat)
    requires cfg.Valid() && Run(cfg, ws, es) && n < |es|
    requires a in ws[n].sessions && a in ws[n + 1].sessions && ws[n].sessions[a].state.Open?
    requires Leading(Buffered(cfg, ws[n].sessions[a]), cfg.pipeline, k)
    ensures var w, s, q := ws[n], ws[n].sessions[a], Buffered(cfg, ws[n].sessions[a]);
            ws[n + 1].sessions[a].state.Draining?
            <==> || es[n] == ReadReturns(a, Eof)
                 || (es[n] == ReaderRuns(a) && s.reader.ReaderTop? && k < cfg.pipeline && k < |q| && q[k].Fatal?
                     && (k == 0 || Served(w, s)))
  {
    hide Run, Inv, SessionInv, Classify, Owners, Leading, Served;
    if Own(es[n], a) {
      OwnStep(cfg, ws, es, n, a);
      if Scans(ws[n].sessions[a], es[n]) { ReaderTurnTakes(cfg, ws, es, n, a, k); }
    } else {
      Bystander(cfg, ws, es, n, a);
    }
  }

  /** Exactly the owners of commands on a connection that is lost are told, once, and they are aborted. */
  lemma OwnersAreTold(cfg: Config, ws: seq<World>, es: seq<Event>, n: nat, a: Addr)
    requires cfg.Valid() && Run(cfg, ws, es) && n < |es| && a in ws[n].sessions && a in ws[n + 1].sessions
    ensures var w, w', s, s' := ws[n], ws[n + 1], ws[n].sessions[a], ws[n + 1].sessions[a];
            && (LosesItsChannel(w, w', a) ==> s'.failures == s.failures + 1 && s'.state.Aborted?)
            && (!LosesItsChannel(w, w', a) ==> s'.failures == s.failures)
  {
    hide Run, Inv, SessionInv, Classify, Owners, LosesItsChannel, Leading, Scan, FrameBytes;
    LosesIff(cfg, ws, es, n, a);
    if Own(es[n], a) {
      OwnStep(cfg, ws, es, n, a);
      if Scans(ws[n].sessions[a], es[n]) { TurnTellsNobody(cfg, ws, es, n, a); }
    } else {
      Bystander(cfg, ws, es, n, a);
    }
  }

  lemma TurnTellsNobody(cfg: Config, ws: seq<World>, es: seq<Event>, n: nat, a: Addr)
    requires cfg.Valid() && Run(cfg, ws, es) && n < |es| && Own(es[n], a) && a in ws[n].sessions && Scans(ws[n].sessions[a], es[n])
    ensures a in ws[n + 1].sessions && TurnKeeps(ws[n].sessions[a], ws[n + 1].sessions[a])
  {
    hide Inv, StepChannel, StepSession, ReaderTurn;
    IsTurn(cfg, ws[n], es[n]);
    TurnLeaves(cfg, ws[n], a);
  }

  /** What no turn of the reader changes. */
  predicate TurnKeeps(s: Session, s': Session) {
    && s'.inc == s.inc && s'.failures == s.failures && s'.received == s.received && s'.eof == s.eof
    && s'.writer == s.writer && s'.handed == s.handed && s'.queued == s.queued && s'.activeLoops == s.activeLoops
    && (s'.replySignal == s.replySignal || s'.replySignal == s.replySignal.Notify())
    && (s'.outputSignal == s.outputSignal || s'.outputSignal == s.outputSignal.Notify())
  }

  lemma TurnLeaves(cfg: Config, w: World, a: Addr)
    requires a in w.sessions && w.sessions[a].reader.ReaderTop? && w.sessions[a].state.Open?
    ensures a in ReaderTurn(cfg, w, a).sessions && TurnKeeps(w.sessions[a], ReaderTurn(cfg, w, a).sessions[a])
  {
    hide Scan, FrameBytes, LeastLoaded, OwnedBy, DetachAll, AfterScan, Submit, TurnKeeps;
    var s := w.sessions[a];
    var (rs, stop) := Scan(cfg, s.clientIn, cfg.pipeline);
    ScanSound(cfg, s.clientIn, cfg.pipeline);
    var choice := Select(w.channels, s.currentBackend);
    if rs == [] {
      NothingTaken(s.clientIn);
      AfterScanLeaves(s, s, stop);
    } else if choice.None? {
      AbortLeaves(s, s.clientIn[|FrameBytes(rs)|..]);
    } else {
      AfterScanLeaves(s, Take(s, rs, choice.value), stop);
    }
  }

  lemma AfterScanLeaves(s: Session, s1: Session, stop: Stop)
    requires stop.Refused? ==> |stop.frame| <= |s1.clientIn|
    requires s.state.Open? && s1 == s.(clientIn := s1.clientIn, requests := s1.requests, currentBackend := s1.currentBackend, pendingReplies := s1.pendingReplies)
    ensures TurnKeeps(s, AfterScan(s1, stop))
  {
  }

  lemma AbortLeaves(s: Session, rest: Bytes)
    ensures TurnKeeps(s, AbortSession(s).(clientIn := rest))
  {
  }

  /** The bytes of a session are those its reads returned while it was open, in order; its end of file is the one they reported. */
  lemma ReceivedIff(cfg: Config, ws: seq<World>, es: seq<Event>, n: nat, a: Addr)
    requires cfg.Valid() && Run(cfg, ws, es) && n < |es| && a in ws[n].sessions && a in ws[n + 1].sessions
    ensures var s, s', e := ws[n].sessions[a], ws[n + 1].sessions[a], es[n];
            && s'.received == s.received + (if e.ReadReturns? && e.a == a && e.result.Data? && s.state.Open? then e.result.bytes else [])
            && (s'.eof <==> s.eof || (e == ReadReturns(a, Eof) && s.state.Open?))
  {
    hide Run, Inv, SessionInv, Classify, Owners, Leading, Scan, FrameBytes;
    if Own(es[n], a) {
      OwnStep(cfg, ws, es, n, a);
      if Scans(ws[n].sessions[a], es[n]) { TurnTellsNobody(cfg, ws, es, n, a); }
    } else {
      Bystander(cfg, ws, es, n, a);
    }
  }

  // ----- the loops of a session -----

  /** Nothing to write now, and something may yet come. */
  predicate WriterWaits(s: Session) {
    !s.state.Aborted? && s.clientOut == [] && !(s.state.Draining? && s.pendingReplies == 0)
  }

  /** What the next write is to carry: up to 64 replies, or the final error once nothing else is left or due. */
  function Outgoing(s: Session): seq<Reply> {
    if s.state.Aborted? then []
    else if s.clientOut != [] then (if |s.clientOut| <= 64 then s.clientOut else s.clientOut[..64])
    else if s.state.Draining? && s.pendingReplies == 0 && s.finalError != "" then [ErrorReply(s.finalError)]
    else []
  }

  /** Where the output loop goes, on what, and what it hands to the socket. */
  lemma WriterGoesOn(cfg: Config, ws: seq<World>, es: seq<Event>, n: nat, a: Addr)
    requires cfg.Valid() && Run(cfg, ws, es) && n < |es| && a in ws[n].sessions && a in ws[n + 1].sessions
    ensures var s, s', e := ws[n].sessions[a], ws[n + 1].sessions[a], es[n];
            && (!s.writer.Sending? ==> (s'.writer.Sending? <==> e == WriterRuns(a) && Outgoing(s) != []))
            && (s.writer.Sending? ==> (s'.writer.WriterTop? <==> e.WriteReturns? && e.a == a))
            && (!s.writer.WriterExited? ==>
                  (s'.writer.WriterExited? <==> e == WriterRuns(a) && Outgoing(s) == [] && !WriterWaits(s)))
            && s'.handed == s.handed + (if e == WriterRuns(a) then Outgoing(s) else [])
            && (!s.outputSignal.waiter.Blocked? ==>
                  (s'.outputSignal.waiter.Blocked? <==> e == WriterRuns(a) && WriterWaits(s) && !s.outputSignal.pending))
            && (e == WriterRuns(a) && WriterWaits(s) ==> !s'.outputSignal.pending)
            && (s.outputSignal.waiter.Woken? ==>
                  (s'.outputSignal.waiter.Running? <==> e == WriterWakes(a)) && (e == WriterWakes(a) ==> !s'.outputSignal.pending))
  {
    hide Run, Inv, OrderInv, FramingInv, LoopInv, Classify, Owners, Leading, Scan, FrameBytes;
    if Own(es[n], a) {
      OwnStep(cfg, ws, es, n, a);
      if Scans(ws[n].sessions[a], es[n]) { TurnTellsNobody(cfg, ws, es, n, a); }
    } else {
      Bystander(cfg, ws, es, n, a);
    }
  }

  /** A refused command waits for the replies before it. */
  predicate AwaitsReplies(s: Session) { s.reader.Awaiting? && s.state.Open? && s.pendingReplies != 0 }

  /** Where the input loop goes between its turns, and on what. */
  lemma SessionReaderGoesOn(cfg: Config, ws: seq<World>, es: seq<Event>, n: nat, a: Addr)
    requires cfg.Valid() && Run(cfg, ws, es) && n < |es| && a in ws[n].sessions && a in ws[n + 1].sessions
    ensures var s, s', e := ws[n].sessions[a], ws[n + 1].sessions[a], es[n];
            && (!s.reader.ReaderExited? ==>
                  (s'.reader.ReaderExited? <==> e == ReaderRuns(a) && s.reader.ReaderTop? && !s.state.Open?))
            && (s.reader.Reading? ==> s'.reader == (if e.ReadReturns? && e.a == a then ReaderTop else Reading))
            && (s.reader.Awaiting? ==> s'.reader == (if e == ReaderRuns(a) && !AwaitsReplies(s) then ReaderTop else s.reader))
            && (!s.replySignal.waiter.Blocked? ==>
                  (s'.replySignal.waiter.Blocked? <==> e == ReaderRuns(a) && AwaitsReplies(s) && !s.replySignal.pending))
            && (e == ReaderRuns(a) && AwaitsReplies(s) ==> !s'.replySignal.pending)
            && (s.replySignal.waiter.Woken? ==>
                  (s'.replySignal.waiter.Running? <==> e == ReaderWakes(a)) && (e == ReaderWakes(a) ==> !s'.replySignal.pending))
  {
    hide Run, Inv, OrderInv, FramingInv, OutputInv, Classify, Owners, Leading, Scan, FrameBytes;
    if Own(es[n], a) {
      OwnStep(cfg, ws, es, n, a);
      if Scans(ws[n].sessions[a], es[n]) {
        TurnTellsNobody(cfg, ws, es, n, a);
        var k := LeadingExists(cfg, ws[n].sessions[a]);
        TurnGoesOn(cfg, ws, es, n, a, k);
      }
    } else {
      Bystander(cfg, ws, es, n, a);
    }
  }

  lemma TurnGoesOn(cfg: Config, ws: seq<World>, es: seq<Event>, n: nat, a: Addr, k: nat)
    requires cfg.Valid() && Run(cfg, ws, es) && n < |es| && Own(es[n], a) && a in ws[n].sessions && Scans(ws[n].sessions[a], es[n])
    requires Leading(Buffered(cfg, ws[n].sessions[a]), cfg.pipeline, k)
    ensures a in ws[n + 1].sessions && !ws[n + 1].sessions[a].reader.ReaderExited?
  {
    hide Run, Classify, Leading, Inv, Enabled;
    RunLength(cfg, ws, es);
    ReaderTurnTakes(cfg, ws, es, n, a, k);
    if k > 0 && !Served(ws[n], ws[n].sessions[a]) {
      RefusedGoesOn(cfg, ws, es, n, a, k);
    }
  }

  lemma RefusedGoesOn(cfg: Config, ws: seq<World>, es: seq<Event>, n: nat, a: Addr, k: nat)
    requires cfg.Valid() && Run(cfg, ws, es) && n < |es| && es[n] == ReaderRuns(a) && a in ws[n].sessions && Scans(ws[n].sessions[a], es[n])
    requires Leading(Buffered(cfg, ws[n].sessions[a]), cfg.pipeline, k) && k > 0 && !Served(ws[n], ws[n].sessions[a])
    ensures a in ws[n + 1].sessions && ws[n + 1].sessions[a].reader.ReaderTop?
  {
    hide Inv, StepChannel, StepSession, ReaderTurn, Classify, Leading, Select;
    IsTurn(cfg, ws[n], es[n]);
    Theorems.RefusedOnlyWithoutBackends(cfg, ws, es, n, a);
    Theorems.CountersMatchQueues(cfg, ws, es, n, 0, a) by { SomeChannel(cfg, ws, es, n); }
    TurnRefused(cfg, ws[n], a, k);
  }

  /** The replies queued for a client come from its channel, from a refused command whose turn it is, or from the final error. */
  lemma QueuedIff(cfg: Config, ws: seq<World>, es: seq<Event>, n: nat, a: Addr)
    requires cfg.Valid() && Run(cfg, ws, es) && n < |es| && a in ws[n].sessions && a in ws[n + 1].sessions
    ensures var w, s, s', e := ws[n], ws[n].sessions[a], ws[n + 1].sessions[a], es[n];
            s'.queued == s.queued + (if Answers(w, e, a) then [FromBackend(w.channels[e.c].redisIn[0])]
                                     else if e == ReaderRuns(a) && s.reader.Awaiting? && s.state.Open? && !AwaitsReplies(s)
                                     then [ErrorReply(s.reader.message)]
                                     else if e == WriterRuns(a) && !s.state.Aborted? && s.clientOut == [] then Outgoing(s)
                                     else [])
  {
    hide Run, Inv, OrderInv, FramingInv, LoopInv, Classify, Owners, Leading, Scan, FrameBytes;
    if Own(es[n], a) {
      OwnStep(cfg, ws, es, n, a);
      if Scans(ws[n].sessions[a], es[n]) { TurnTellsNobody(cfg, ws, es, n, a); }
    } else {
      Bystander(cfg, ws, es, n, a);
      NotBoth(ws[n], es[n], a);
    }
  }

  lemma NotBoth(w: World, e: Event, a: Addr)
    ensures !(Loses(w, e, a) && Answers(w, e, a))
  {
  }

  // ----- coming and going -----

  /**
   A session comes into being exactly when a client arrives, as a new one with both loops at their tops, and
   goes exactly when the worker reaps it after both loops have exited.
   */
  lemma SessionsComeAndGo(cfg: Config, ws: seq<World>, es: seq<Event>, n: nat, a: Addr)
    requires cfg.Valid() && Run(cfg, ws, es) && n < |es|
    ensures a in ws[n + 1].sessions
            <==> es[n] == ClientArrives(a)
                 || (a in ws[n].sessions
                     && !(es[n].Reap? && ws[n].sessions[a].reader.ReaderExited? && ws[n].sessions[a].writer.WriterExited?))
    ensures a !in ws[n].sessions && a in ws[n + 1].sessions ==>
              var s := ws[n + 1].sessions[a];
              && s.state.Open? && s.reader.ReaderTop? && s.writer.WriterTop? && s.received == [] && !s.eof && s.requests == []
              && s.inc == ws[n].nextInc && ws[n + 1].nextInc == ws[n].nextInc + 1
              && forall t :: t in ws[n].fate ==> t.inc != s.inc
  {
    hide Run, Inv, SessionInv, Owners;
    RunLength(cfg, ws, es);
    if a in ws[n].sessions {
      BothExited(cfg, ws, es, n, a);
      if Own(es[n], a) { OwnStep(cfg, ws, es, n, a); } else { Bystander(cfg, ws, es, n, a); }
      NoArrivalHere(cfg, ws, es, n, a);
    } else {
      Arrival(cfg, ws, es, n, a);
    }
  }

  lemma BothExited(cfg: Config, ws: seq<World>, es: seq<Event>, n: nat, a: Addr)
    requires cfg.Valid() && Run(cfg, ws, es) && n < |ws| && a in ws[n].sessions
    ensures a in ws[n].finished <==> ws[n].sessions[a].reader.ReaderExited? && ws[n].sessions[a].writer.WriterExited?
  {
    hide Run, Coupled, FateInv, ChannelInv, OrderInv, FramingInv, OutputInv;
    RunInv(cfg, ws, es, n);
  }

  lemma NoArrivalHere(cfg: Config, ws: seq<World>, es: seq<Event>, n: nat, a: Addr)
    requires Run(cfg, ws, es) && n < |es| && a in ws[n].sessions
    ensures es[n] != ClientArrives(a)
  {
    hide Step;
  }

  lemma Arrival(cfg: Config, ws: seq<World>, es: seq<Event>, n: nat, a: Addr)
    requires cfg.Valid() && Run(cfg, ws, es) && n < |es| && a !in ws[n].sessions
    ensures a in ws[n + 1].sessions <==> es[n] == ClientArrives(a)
    ensures es[n] == ClientArrives(a) ==>
              && ws[n + 1].sessions[a] == NewSession(ws[n].nextInc) && ws[n + 1].nextInc == ws[n].nextInc + 1
              && forall t :: t in ws[n].fate ==> t.inc != ws[n].nextInc
  {
    hide StepSession, StepChannel, Local, Coupled, FateWaits, FateAccepted, FateOrphans, Book;
    RunInv(cfg, ws, es, n);
    var w, e := ws[n], es[n];
    if IsSessionEvent(e) { SessionKeys(cfg, w, e); }
    else if IsChannelEvent(e) { ChannelKeys(w, e); }
  }

  lemma SessionKeys(cfg: Config, w: World, e: Event)
    requires Enabled(w, e) && IsSessionEvent(e)
    ensures StepSession(cfg, w, e).sessions.Keys == w.sessions.Keys
  {
    hide ReaderTurn, OwnedBy, DetachAll, AbortSession;
    if e.ReaderRuns? && Scans(w.sessions[e.a], e) { TurnKeys(cfg, w, e.a); }
  }

  lemma TurnKeys(cfg: Config, w: World, a: Addr)
    requires a in w.sessions && w.sessions[a].reader.ReaderTop? && w.sessions[a].state.Open?
    ensures ReaderTurn(cfg, w, a).sessions.Keys == w.sessions.Keys
  {
    hide Scan, FrameBytes, LeastLoaded, OwnedBy, DetachAll, AfterScan, AbortSession;
    ScanSound(cfg, w.sessions[a].clientIn, cfg.pipeline);
  }

  lemma ChannelKeys(w: World, e: Event)
    requires Enabled(w, e) && IsChannelEvent(e)
    ensures StepChannel(w, e).sessions.Keys == w.sessions.Keys
  {
    hide OwnedBy, DetachAll, AbortSession, Owners, OnBackendReply;
  }

  // ----- nobody is stuck -----

  /**
   Whoever has not ended and does not wait, for the network, for a notification or for the scheduler, can go on:
   each loop of each session, and each channel's two coroutines.
   */
  lemma NobodyIsStuck(cfg: Config, ws: seq<World>, es: seq<Event>, n: nat)
    requires cfg.Valid() && Run(cfg, ws, es) && n < |ws|
    ensures forall a :: a in ws[n].sessions ==>
              && (var s := ws[n].sessions[a];
                  || s.reader.ReaderExited? || s.replySignal.waiter.Blocked? || Enabled(ws[n], ReaderRuns(a)) || Enabled(ws[n], ReaderWakes(a))
                  || forall r :: Enabled(ws[n], ReadReturns(a, r)))
              && (var s := ws[n].sessions[a];
                  || s.writer.WriterExited? || s.outputSignal.waiter.Blocked? || Enabled(ws[n], WriterRuns(a)) || Enabled(ws[n], WriterWakes(a))
                  || forall ok :: Enabled(ws[n], WriteReturns(a, ok)))
    ensures forall c :: 0 <= c < |ws[n].channels| ==>
              && (var ch := ws[n].channels[c];
                  || ch.run.Idle? || ch.writerSignal.waiter.Blocked? || Enabled(ws[n], RunContinues(c)) || Enabled(ws[n], RunWakes(c))
                  || (forall ok :: Enabled(ws[n], ConnectReturns(c, ok))) || Enabled(ws[n], BatchReturns(c, false)))
              && (var ch := ws[n].channels[c];
                  || ch.reader.NoReader? || Enabled(ws[n], ReceiveRuns(c)) || Enabled(ws[n], ReceiveReturns(c, None, false))
                  || Enabled(ws[n], ParseRuns(c, Incomplete)))
  {
    hide Run;
    Theorems.NoLostWakeUps(cfg, ws, es, n);
  }
}
