/** Why a channel changes: over whole runs, the events that connect, lose, stop and drive it, and no others. */
module ChannelCauses {
  import opened Resp
  import opened Signals
  import opened Framing
  import opened Channels
  import opened Sessions
  import opened Proxy
  import opened ProxyInv
  import opened ProxySteps

  // ----- the part of a channel that steers it -----

  /** What is between us and Redis. */
  datatype Wire = Wire(redisIn: seq<Tag>, inTransit: seq<Tag>, atRedis: seq<Tag>, unsent: seq<Tag>, leftover: bool)

  datatype Control = Control(state: ChannelState, stopRequested: bool, readerDone: bool, run: RunPc, reader: ReceivePc, wire: Wire)

  function ControlOf(ch: Channel): Control {
    Control(ch.state, ch.stopRequested, ch.readerDone, ch.run, ch.reader,
            Wire(ch.redisIn, ch.inTransit, ch.atRedis, ch.unsent, ch.leftover))
  }

  const Silence := Wire([], [], [], [], false)

  predicate IsSessionEvent(e: Event) {
    e.ReaderRuns? || e.ReadReturns? || e.ReaderWakes? || e.WriterRuns? || e.WriteReturns? || e.WriterWakes?
  }

  predicate IsChannelEvent(e: Event) { !IsSessionEvent(e) && !e.ClientArrives? && !e.Reap? }

  /** Somebody may have notified the channel's coroutine. */
  predicate Nudged(ch: Channel, ch': Channel) { ch'.writerSignal == ch.writerSignal || ch'.writerSignal == ch.writerSignal.Notify() }

  predicate SameControl(w: World, w': World) {
    && |w'.channels| == |w.channels|
    && forall c :: 0 <= c < |w.channels| ==>
         ControlOf(w'.channels[c]) == ControlOf(w.channels[c]) && Nudged(w.channels[c], w'.channels[c])
  }

  lemma DetachControl(w: World, s: set<Addr>)
    ensures |DetachAll(w.channels, s)| == |w.channels|
    ensures forall c :: 0 <= c < |w.channels| ==>
              ControlOf(DetachAll(w.channels, s)[c]) == ControlOf(w.channels[c]) && Nudged(w.channels[c], DetachAll(w.channels, s)[c])
  {
  }

  lemma AbortControl(w: World, s: set<Addr>)
    ensures SameControl(w, Abort(w, s))
  {
    DetachControl(w, Live(w, s));
  }

  lemma FinishControl(w: World, a: Addr, s: Session)
    ensures SameControl(w, FinishLoop(w, a, s))
  {
    DetachControl(w, {a});
  }

  lemma ReaderTurnControl(cfg: Config, w: World, a: Addr)
    requires a in w.sessions && w.sessions[a].reader.ReaderTop? && w.sessions[a].state.Open?
    ensures SameControl(w, ReaderTurn(cfg, w, a))
  {
    hide Scan, FrameBytes, Abort, LeastLoaded;
    AbortControl(w, {a});
    ScanSound(cfg, w.sessions[a].clientIn, cfg.pipeline);
  }

  lemma SessionsLeaveControl(cfg: Config, w: World, e: Event)
    requires Enabled(w, e) && IsSessionEvent(e)
    ensures SameControl(w, StepSession(cfg, w, e))
  {
    hide SameControl, Abort, FinishLoop, ReaderTurn;
    var a := e.a;
    var s := w.sessions[a];
    match e {
      case ReaderRuns(_) =>
        if s.reader.Awaiting? { ControlStays(w, SetSession(w, a, AwaitReplies(s))); }
        else if s.state.Open? { ReaderTurnControl(cfg, w, a); }
        else { FinishControl(w, a, s.(reader := ReaderExited)); }
      case ReadReturns(_, Data(bytes)) => ControlStays(w, SetSession(w, a, Feed(s, bytes)));
      case ReadReturns(_, Eof) => ControlStays(w, SetSession(w, a, HangUp(s)));
      case ReadReturns(_, ReadError) => AbortedControl(w, if s.state.Open? then {a} else {}, StepSession(cfg, w, e));
      case ReaderWakes(_) => ControlStays(w, SetSession(w, a, s.(replySignal := s.replySignal.Resume())));
      case WriterRuns(_) =>
        if WriterDone(s) { FinishControl(w, a, s.(writer := WriterExited)); }
        else { ControlStays(w, SetSession(w, a, WriteTurn(s))); }
      case WriteReturns(_, ok) => AbortedControl(w, if ok then {} else {a}, StepSession(cfg, w, e));
      case WriterWakes(_) => ControlStays(w, SetSession(w, a, s.(outputSignal := s.outputSignal.Resume())));
    }
  }

  lemma ControlStays(w: World, w': World)
    requires w'.channels == w.channels
    ensures SameControl(w, w')
  {
  }

  lemma AbortedControl(w: World, s: set<Addr>, w': World)
    requires w'.channels == Abort(w, s).channels
    ensures SameControl(w, w')
  {
    AbortControl(w, s);
  }

  /** What losing a connection leaves in every channel. */
  lemma LostControl(w: World, c: nat, d: nat)
    requires c < |w.channels| && d < |w.channels|
    ensures var w' := FailConnection(w, c);
            && |w'.channels| == |w.channels|
            && ControlOf(w'.channels[d])
               == (if d == c && w.channels[c].state.Ready? then ControlOf(w.channels[c]).(state := Closing) else ControlOf(w.channels[d]))
            && Nudged(w.channels[d], w'.channels[d])
  {
    hide OwnedBy, Owners, Abort;
    if w.channels[c].state.Ready? { AbortControl(LoseConnection(w, c), Owners(w.channels[c])); }
  }

  lemma DispatchControl(cfg: Config, w: World, c: nat, d: nat)
    requires Inv(cfg, w) && c < |w.channels| && d < |w.channels| && w.channels[c].state.Ready? && w.channels[c].redisIn != []
    ensures |Dispatch(w, c).channels| == |w.channels|
    ensures ControlOf(Dispatch(w, c).channels[d])
            == (if d == c then ControlOf(w.channels[c]).(wire := ControlOf(w.channels[c]).wire.(redisIn := w.channels[c].redisIn[1..]))
                else ControlOf(w.channels[d]))
    ensures Nudged(w.channels[d], Dispatch(w, c).channels[d])
  {
    hide SessionInv, ChannelInv, FateInv, Book, Coupled, FailConnection, PopReply;
    DispatchTarget(cfg, w, c);
    AnsweredSteers(w.channels[c]);
  }

  lemma AnsweredSteers(ch: Channel)
    requires ch.pendingQueue != [] && ch.redisIn != []
    ensures ControlOf(Answered(ch)) == ControlOf(ch).(wire := ControlOf(ch).wire.(redisIn := ch.redisIn[1..]))
    ensures Answered(ch).writerSignal == ch.writerSignal
  {
  }

  /** The connection of channel `c` is given up. */
  predicate Breaks(ch: Channel, e: Event, c: nat) {
    || e == Stop(c)
    || e == BatchReturns(c, false)
    || (e.ReceiveReturns? && e.c == c && e.replies.None?)
    || (e.ParseRuns? && e.c == c && ch.redisIn == [] && !e.tail.Incomplete?)
  }

  /** Where an event of its own leaves the channel that steers by `x`. */
  function Moved(ch: Channel, e: Event): Control
    requires IsChannelEvent(e)
  {
    var x := ControlOf(ch);
    var lost := if x.state.Ready? then x.(state := Closing) else x;
    match e
    case Start(_) => if x.state.Stopped? then x.(stopRequested := false, state := Connecting, run := RunTop) else x
    case Stop(_) => lost.(stopRequested := true)
    case RunContinues(_) =>
      if x.run.BatchTop? then
        if !x.state.Ready? then x.(run := JoinTop)
        else if ch.writeQueue == [] then x
        else x.(run := Writing, wire := x.wire.(unsent := ch.writeQueue[0].tags))
      else if x.run.JoinTop? then
        if x.readerDone then x.(run := if x.stopRequested then RunTop else Backoff, wire := Silence) else x
      else if x.stopRequested then x.(state := Stopped, run := Idle)
      else x.(state := Connecting, run := AtConnect)
    case ConnectReturns(_, ok) =>
      if ok && !x.stopRequested then Control(Ready, false, false, BatchTop, ReceiveTop, x.wire)
      else x.(run := if x.stopRequested then RunTop else Backoff, wire := Silence)
    case BatchReturns(_, ok) => (if ok then x else lost).(run := BatchTop, wire := x.wire.(unsent := []))
    case ReceiveRuns(_) => if x.state.Ready? then x.(reader := Receiving) else x.(reader := NoReader, readerDone := true)
    case ReceiveReturns(_, replies, more) =>
      if x.state.Ready? && replies.Some? then x.(reader := Parsing, wire := ReadIn(x.wire, replies.value, more))
      else lost.(reader := ReceiveTop, wire := x.wire.(leftover := ch.leftover || more))
    case ParseRuns(_, tail) =>
      if x.state.Ready? && ch.redisIn != [] then x.(wire := x.wire.(redisIn := ch.redisIn[1..]))
      else if x.state.Ready? && !tail.Incomplete? then lost.(reader := ReceiveTop)
      else x.(reader := ReceiveTop)
    case Transmit(_, k) => x.(wire := SentOut(x.wire, k))
    case RedisAnswers(_, k) => x.(wire := SentBack(x.wire, k))
    case _ => x
  }

  /** The next `k` replies on their way have been read, and `more` says whether others have begun. */
  function ReadIn(x: Wire, k: nat, more: bool): Wire {
    if k <= |x.inTransit| then x.(redisIn := x.redisIn + x.inTransit[..k], inTransit := x.inTransit[k..], leftover := more) else x
  }

  /** The next `k` commands have reached Redis. */
  function SentOut(x: Wire, k: nat): Wire {
    if k <= |x.unsent| then x.(atRedis := x.atRedis + x.unsent[..k], unsent := x.unsent[k..]) else x
  }

  /** Redis has answered its oldest `k` commands. */
  function SentBack(x: Wire, k: nat): Wire {
    if k <= |x.atRedis| then x.(inTransit := x.inTransit + x.atRedis[..k], atRedis := x.atRedis[k..]) else x
  }

  /** The channel has moved as its own events move it, and its signal as others and its waits do. */
  predicate MovedOn(ch: Channel, e: Event, ch': Channel)
    requires IsChannelEvent(e)
  {
    && ControlOf(ch') == Moved(ch, e)
    && (e.RunWakes? ==> ch'.writerSignal == Signal(false, Running))
    && (e.RunContinues? && Waiting(ch) ==> ch'.writerSignal == (if ch.writerSignal.pending then Signal(false, Running) else Signal(false, Blocked)))
    && (!e.RunWakes? && !(e.RunContinues? && Waiting(ch)) ==> Nudged(ch, ch'))
  }

  /** At a wait whose condition does not hold. */
  predicate Waiting(ch: Channel) {
    (ch.run.BatchTop? && ch.state.Ready? && ch.writeQueue == []) || (ch.run.JoinTop? && !ch.readerDone)
  }

  /** One channel after an event of one channel. */
  predicate AfterEvent(w: World, e: Event, w': World, d: nat)
    requires IsChannelEvent(e) && d < |w.channels|
  {
    && |w'.channels| == |w.channels|
    && if d == e.c then MovedOn(w.channels[d], e, w'.channels[d])
       else ControlOf(w'.channels[d]) == ControlOf(w.channels[d]) && Nudged(w.channels[d], w'.channels[d])
  }

  lemma PlainMoves(w: World, e: Event, d: nat)
    requires Enabled(w, e) && d < |w.channels|
    requires e.Start? || e.RunWakes? || e.ConnectReturns? || e.ReceiveRuns? || e.Transmit? || e.RedisAnswers?
    ensures AfterEvent(w, e, StepChannel(w, e), d)
  {
    hide TakeBatch, FailConnection, Dispatch, RunStep;
  }

  lemma RunMoves(w: World, c: nat, d: nat)
    requires Enabled(w, RunContinues(c)) && d < |w.channels| && ControlInv(w.channels[c])
    ensures AfterEvent(w, RunContinues(c), StepChannel(w, RunContinues(c)), d)
  {
    hide TakeBatch, FailConnection, Dispatch;
    if w.channels[c].writeQueue != [] { TakeBatchSteers(w.channels[c]); }
  }

  lemma TakeBatchSteers(ch: Channel)
    requires ch.writeQueue != []
    ensures ControlOf(TakeBatch(ch)) == ControlOf(ch).(run := Writing, wire := ControlOf(ch).wire.(unsent := ch.writeQueue[0].tags))
    ensures TakeBatch(ch).writerSignal == ch.writerSignal
  {
  }

  lemma StopMoves(w: World, c: nat, d: nat)
    requires Enabled(w, Stop(c)) && d < |w.channels|
    ensures AfterEvent(w, Stop(c), StepChannel(w, Stop(c)), d)
  {
    hide FailConnection;
    LostControl(SetChannel(w, c, w.channels[c].(stopRequested := true)), c, d);
  }

  lemma BreakingMoves(w: World, e: Event, d: nat)
    requires Enabled(w, e) && d < |w.channels| && (e.BatchReturns? || e.ReceiveReturns?)
    ensures AfterEvent(w, e, StepChannel(w, e), d)
  {
    hide FailConnection;
    LostControl(w, e.c, d);
  }

  lemma ParseMoves(cfg: Config, w: World, e: Event, d: nat)
    requires Inv(cfg, w) && Enabled(w, e) && e.ParseRuns? && d < |w.channels|
    ensures AfterEvent(w, e, StepChannel(w, e), d)
  {
    hide Inv, FailConnection, Dispatch;
    var c, ch := e.c, w.channels[e.c];
    LostControl(w, c, d);
    if ch.state.Ready? && ch.redisIn != [] { DispatchControl(cfg, w, c, d); }
  }

  /** One event, any channel. */
  lemma StepControl(cfg: Config, ws: seq<World>, es: seq<Event>, n: nat, c: nat)
    requires cfg.Valid() && Run(cfg, ws, es) && n < |es| && c < |ws[n].channels|
    ensures n + 1 < |ws| && Inv(cfg, ws[n]) && Enabled(ws[n], es[n]) && ChannelInv(ws[n].channels[c])
    ensures if IsChannelEvent(es[n]) then AfterEvent(ws[n], es[n], ws[n + 1], c) else SameControl(ws[n], ws[n + 1])
  {
    hide Inv, ChannelInv, StepSession, StepChannel, AfterEvent, Enabled;
    var w, e := ws[n], es[n];
    RunInv(cfg, ws, es, n);
    LocalChannel(cfg, w, c);
    if IsSessionEvent(e) { SessionsLeaveControl(cfg, w, e); }
    else if e.Stop? { StopMoves(w, e.c, c); }
    else if e.BatchReturns? || e.ReceiveReturns? { BreakingMoves(w, e, c); }
    else if e.ParseRuns? { ParseMoves(cfg, w, e, c); }
    else if e.RunContinues? { OwnChannel(w, e); LocalControl(cfg, w, e.c); RunMoves(w, e.c, c); }
    else if IsChannelEvent(e) { PlainMoves(w, e, c); }
  }

  lemma OwnChannel(w: World, e: Event)
    requires Enabled(w, e) && IsChannelEvent(e)
    ensures e.c < |w.channels|
  {
  }

  lemma LocalControl(cfg: Config, w: World, c: nat)
    requires Inv(cfg, w) && c < |w.channels|
    ensures ControlInv(w.channels[c])
  {
    hide Inv, ControlInv, QueueInv, HistoryInv;
    LocalChannel(cfg, w, c);
  }

  // ----- connections -----

  /**
   A ready channel gives up its connection exactly when it is stopped, a write fails, a read fails, or
   its input goes on with something that is no reply; and then it is left with nothing.
   */
  lemma ConnectionLostIff(cfg: Config, ws: seq<World>, es: seq<Event>, n: nat, c: nat)
    requires cfg.Valid() && Run(cfg, ws, es) && n < |es| && c < |ws[n].channels| && ws[n].channels[c].state.Ready?
    ensures |ws[n + 1].channels| == |ws[n].channels|
    ensures !ws[n + 1].channels[c].state.Ready?
            <==> || es[n] == Stop(c)
                 || es[n] == BatchReturns(c, false)
                 || (es[n].ReceiveReturns? && es[n].c == c && es[n].replies.None?)
                 || (es[n].ParseRuns? && es[n].c == c && ws[n].channels[c].redisIn == [] && !es[n].tail.Incomplete?)
    ensures !ws[n + 1].channels[c].state.Ready? ==>
              var ch := ws[n + 1].channels[c];
              ch.state.Closing? && ch.writeQueue == [] && ch.pendingQueue == [] && ch.queuedCommands == 0
  {
    hide Run, Inv, QueueInv, HistoryInv;
    StepControl(cfg, ws, es, n, c);
    if !ws[n + 1].channels[c].state.Ready? {
      RunInv(cfg, ws, es, n + 1);
      LocalChannel(cfg, ws[n + 1], c);
      NothingLeft(ws[n + 1].channels[c]);
    }
  }

  lemma NothingLeft(ch: Channel)
    requires ChannelInv(ch) && !ch.state.Ready?
    ensures ch.writeQueue == [] && ch.pendingQueue == [] && ch.queuedCommands == 0
  {
  }

  /** It becomes ready exactly when connecting succeeds and nobody has asked it to stop. */
  lemma ReadyIffConnected(cfg: Config, ws: seq<World>, es: seq<Event>, n: nat, c: nat)
    requires cfg.Valid() && Run(cfg, ws, es) && n < |es| && c < |ws[n].channels| && !ws[n].channels[c].state.Ready?
    ensures |ws[n + 1].channels| == |ws[n].channels|
    ensures ws[n + 1].channels[c].state.Ready? <==> es[n] == ConnectReturns(c, true) && !ws[n].channels[c].stopRequested
  {
    hide Run, Inv, QueueInv, HistoryInv;
    StepControl(cfg, ws, es, n, c);
  }

  /** Between two connections: the last one is closed, and the next has not been asked for. */
  predicate Between(ch: Channel) { ch.run.RunTop? || ch.run.Backoff? }

  /**
   A channel stops exactly when it goes on between two connections and a stop has been requested; without
   the request, going on means asking for a connection, and nothing else does.
   */
  lemma StopsOrConnects(cfg: Config, ws: seq<World>, es: seq<Event>, n: nat, c: nat)
    requires cfg.Valid() && Run(cfg, ws, es) && n < |es| && c < |ws[n].channels|
    ensures |ws[n + 1].channels| == |ws[n].channels|
    ensures var ch, ch' := ws[n].channels[c], ws[n + 1].channels[c];
            && (!ch.state.Stopped? ==>
                  (ch'.state.Stopped? <==> es[n] == RunContinues(c) && Between(ch) && ch.stopRequested))
            && (!ch.run.AtConnect? ==>
                  (ch'.run.AtConnect? <==> es[n] == RunContinues(c) && Between(ch) && !ch.stopRequested))
            && (ch'.run.AtConnect? ==> ch'.state.Connecting?)
            && (ch'.state.Stopped? <==> ch'.run.Idle?)
  {
    hide Run, Inv, QueueInv, HistoryInv;
    StepControl(cfg, ws, es, n, c);
    RunInv(cfg, ws, es, n + 1);
    LocalChannel(cfg, ws[n + 1], c);
  }

  /** A stopped channel sets out again exactly when it is started; a stop is requested by `stop` and forgotten by that start. */
  lemma StartAndStop(cfg: Config, ws: seq<World>, es: seq<Event>, n: nat, c: nat)
    requires cfg.Valid() && Run(cfg, ws, es) && n < |es| && c < |ws[n].channels|
    ensures |ws[n + 1].channels| == |ws[n].channels|
    ensures var ch, ch' := ws[n].channels[c], ws[n + 1].channels[c];
            && (ch.state.Stopped? ==> (!ch'.state.Stopped? <==> es[n] == Start(c)))
            && (ch'.stopRequested <==> es[n] == Stop(c) || (ch.stopRequested && !(es[n] == Start(c) && ch.state.Stopped?)))
  {
    hide Run, Inv, QueueInv, HistoryInv;
    StepControl(cfg, ws, es, n, c);
  }

  // ----- the two loops -----

  /** Where `run` and its output loop go, and on what. */
  lemma RunGoesOn(cfg: Config, ws: seq<World>, es: seq<Event>, n: nat, c: nat)
    requires cfg.Valid() && Run(cfg, ws, es) && n < |es| && c < |ws[n].channels|
    ensures |ws[n + 1].channels| == |ws[n].channels|
    ensures var ch, ch', e := ws[n].channels[c], ws[n + 1].channels[c], es[n];
            && (!ch.run.BatchTop? ==>
                  (ch'.run.BatchTop? <==> e == BatchReturns(c, true) || e == BatchReturns(c, false)
                                          || (e == ConnectReturns(c, true) && !ch.stopRequested)))
            && (!ch.run.Writing? ==>
                  (ch'.run.Writing? <==> e == RunContinues(c) && ch.run.BatchTop? && ch.state.Ready? && ch.writeQueue != []))
            && (!ch.run.JoinTop? ==>
                  (ch'.run.JoinTop? <==> e == RunContinues(c) && ch.run.BatchTop? && !ch.state.Ready?))
            && (!Between(ch) ==>
                  (Between(ch') <==> || (e == RunContinues(c) && ch.run.JoinTop? && ch.readerDone)
                                     || e == ConnectReturns(c, false) || (e == ConnectReturns(c, true) && ch.stopRequested)
                                     || (e == Start(c) && ch.state.Stopped?)))
            && (!Between(ch) && Between(ch') ==> (ch'.run.Backoff? <==> !ch.stopRequested && !ch.state.Stopped?))
  {
    hide Run, Inv, QueueInv, HistoryInv;
    StepControl(cfg, ws, es, n, c);
  }

  /** Where the input loop goes, and on what: it ends exactly when it finds the connection gone. */
  lemma ReaderGoesOn(cfg: Config, ws: seq<World>, es: seq<Event>, n: nat, c: nat)
    requires cfg.Valid() && Run(cfg, ws, es) && n < |es| && c < |ws[n].channels|
    ensures |ws[n + 1].channels| == |ws[n].channels|
    ensures var ch, ch', e := ws[n].channels[c], ws[n + 1].channels[c], es[n];
            && (!ch.reader.Receiving? ==> (ch'.reader.Receiving? <==> e == ReceiveRuns(c) && ch.state.Ready?))
            && (!ch.reader.NoReader? ==> (ch'.reader.NoReader? <==> e == ReceiveRuns(c) && !ch.state.Ready?))
            && (!ch.reader.Parsing? ==>
                  (ch'.reader.Parsing? <==> e.ReceiveReturns? && e.c == c && e.replies.Some? && ch.state.Ready?))
            && (ch.reader.Parsing? ==>
                  (ch'.reader.ReceiveTop? <==> e.ParseRuns? && e.c == c && (ch.redisIn == [] || !ch.state.Ready?)))
            && (ch.reader.NoReader? ==>
                  (ch'.reader.ReceiveTop? <==> e == ConnectReturns(c, true) && !ch.stopRequested))
            && (ch'.readerDone <==> ch'.reader.NoReader?)
  {
    hide Run, Inv, QueueInv, HistoryInv;
    StepControl(cfg, ws, es, n, c);
    RunInv(cfg, ws, es, n + 1);
    LocalChannel(cfg, ws[n + 1], c);
  }

  /** It falls asleep exactly at a wait whose condition does not hold and without a notification, which is used up otherwise. */
  lemma SleepsIff(cfg: Config, ws: seq<World>, es: seq<Event>, n: nat, c: nat)
    requires cfg.Valid() && Run(cfg, ws, es) && n < |es| && c < |ws[n].channels|
    ensures |ws[n + 1].channels| == |ws[n].channels|
    ensures var ch, ch' := ws[n].channels[c], ws[n + 1].channels[c];
            && (!ch.writerSignal.waiter.Blocked? ==>
                  (ch'.writerSignal.waiter.Blocked? <==> es[n] == RunContinues(c) && Waiting(ch) && !ch.writerSignal.pending))
            && (es[n] == RunContinues(c) && Waiting(ch) ==> !ch'.writerSignal.pending)
            && (ch.writerSignal.waiter.Woken? ==>
                  (ch'.writerSignal.waiter.Running? <==> es[n] == RunWakes(c)) && (es[n] == RunWakes(c) ==> !ch'.writerSignal.pending))
  {
    hide Run, Inv, QueueInv, HistoryInv;
    StepControl(cfg, ws, es, n, c);
  }

  // ----- the wire -----

  /** The connection at hand is closed. */
  predicate Closes(ch: Channel, e: Event, c: nat) {
    (e == RunContinues(c) && ch.run.JoinTop? && ch.readerDone) || e == ConnectReturns(c, false) || (e == ConnectReturns(c, true) && ch.stopRequested)
  }

  /** What the reads of a connection return goes, reply by reply, to its input, and leaves it only by the parser's turns or with the connection. */
  lemma InputIff(cfg: Config, ws: seq<World>, es: seq<Event>, n: nat, c: nat)
    requires cfg.Valid() && Run(cfg, ws, es) && n < |es| && c < |ws[n].channels|
    ensures |ws[n + 1].channels| == |ws[n].channels|
    ensures var ch, ch', e := ws[n].channels[c], ws[n + 1].channels[c], es[n];
            if e.ReceiveReturns? && e.c == c && e.replies.Some? && ch.state.Ready? then
              && e.replies.value <= |ch.inTransit|
              && ch'.redisIn == ch.redisIn + ch.inTransit[..e.replies.value] && ch'.inTransit == ch.inTransit[e.replies.value..]
              && ch'.leftover == e.more
            else if e.ParseRuns? && e.c == c && ch.state.Ready? && ch.redisIn != [] then
              ch'.redisIn == ch.redisIn[1..] && ch'.inTransit == ch.inTransit && ch'.leftover == ch.leftover
            else if Closes(ch, e, c) then
              ch'.redisIn == [] && ch'.inTransit == [] && !ch'.leftover
            else
              ch'.redisIn == ch.redisIn && ch.inTransit <= ch'.inTransit && (ch'.inTransit != ch.inTransit ==> e.RedisAnswers? && e.c == c)
  {
    hide Run, Inv, ChannelInv, Enabled;
    StepControl(cfg, ws, es, n, c);
    if es[n].ReceiveReturns? { EnoughInTransit(ws[n], es[n]); }
  }

  /** What is written goes out in order, and what Redis has received is answered in order; a batch is put in line by the output loop alone. */
  lemma OutputIff(cfg: Config, ws: seq<World>, es: seq<Event>, n: nat, c: nat)
    requires cfg.Valid() && Run(cfg, ws, es) && n < |es| && c < |ws[n].channels|
    ensures |ws[n + 1].channels| == |ws[n].channels|
    ensures var ch, ch', e := ws[n].channels[c], ws[n + 1].channels[c], es[n];
            if e.Transmit? && e.c == c then
              e.k <= |ch.unsent| && ch'.atRedis == ch.atRedis + ch.unsent[..e.k] && ch'.unsent == ch.unsent[e.k..]
            else if e.RedisAnswers? && e.c == c then
              e.k <= |ch.atRedis| && ch'.inTransit == ch.inTransit + ch.atRedis[..e.k] && ch'.atRedis == ch.atRedis[e.k..] && ch'.unsent == ch.unsent
            else if e == RunContinues(c) && ch.run.BatchTop? && ch.state.Ready? && ch.writeQueue != [] then
              ch'.unsent == ch.writeQueue[0].tags && ch'.writeQueue == ch.writeQueue[1..] && ch'.atRedis == ch.atRedis
            else if Closes(ch, e, c) then
              ch'.unsent == [] && ch'.atRedis == []
            else
              ch'.atRedis == ch.atRedis && ch'.unsent == (if e.BatchReturns? && e.c == c then [] else ch.unsent)
  {
    hide Run, Inv, ChannelInv, Enabled;
    StepControl(cfg, ws, es, n, c);
    if es[n].Transmit? || es[n].RedisAnswers? { EnoughOnTheWire(ws[n], es[n]); }
    if es[n] == RunContinues(c) { TakesItsHead(cfg, ws, es, n, c); }
  }

  lemma EnoughOnTheWire(w: World, e: Event)
    requires Enabled(w, e) && (e.Transmit? || e.RedisAnswers?)
    ensures e.c < |w.channels| && e.k <= (if e.Transmit? then |w.channels[e.c].unsent| else |w.channels[e.c].atRedis|)
  {
  }

  lemma TakesItsHead(cfg: Config, ws: seq<World>, es: seq<Event>, n: nat, c: nat)
    requires Run(cfg, ws, es) && n < |es| && es[n] == RunContinues(c) && c < |ws[n].channels|
    ensures var ch := ws[n].channels[c];
            && c < |ws[n + 1].channels|
            && (ch.run.BatchTop? && ch.state.Ready? && ch.writeQueue != [] ==> ws[n + 1].channels[c].writeQueue == ch.writeQueue[1..])
  {
    hide StepSession, FailConnection, Dispatch;
    assert Enabled(ws[n], es[n]) && ws[n + 1] == Step(cfg, ws[n], es[n]);
  }

  lemma EnoughInTransit(w: World, e: Event)
    requires Enabled(w, e) && e.ReceiveReturns?
    ensures e.c < |w.channels| && (e.replies.Some? ==> e.replies.value <= |w.channels[e.c].inTransit|)
  {
  }
}
