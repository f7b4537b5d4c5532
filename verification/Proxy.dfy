/**
 The worker's sessions, channels and pool as one transition system.

 An event is the code a coroutine runs between two suspension points, or less: some events stop
 where the source carries straight on, which only adds interleavings.  Events also stand for what
 clients, sockets and Redis do.  Redis answers the commands of one connection in order, one reply
 each ("Request-Response model" and "Multiple commands and pipelining" of the RESP specification).
 `notify` never switches coroutine.
 */
module Proxy {
  import opened Resp
  import opened Signals
  import opened Framing
  import opened Channels
  import opened Sessions

  /** What became of a command that a channel accepted. */
  datatype Fate = Outstanding | Delivered | Discarded | Failed

  datatype World = World(
    channels: seq<Channel>,
    sessions: map<Addr, Session>,
    finished: seq<Addr>,
    nextInc: nat,
    fate: map<Tag, Fate>
  )

  datatype ReadResult = Data(bytes: Bytes) | Eof | ReadError

  /** What follows the complete replies in a channel's input. */
  datatype ParseTail = Incomplete | Garbage | Unsolicited

  datatype Event =
    // the worker
    | ClientArrives(a: Addr) | Reap
    // a session
    | ReaderRuns(a: Addr) | ReadReturns(a: Addr, result: ReadResult) | ReaderWakes(a: Addr)
    | WriterRuns(a: Addr) | WriteReturns(a: Addr, ok: bool) | WriterWakes(a: Addr)
    // a channel
    | Start(c: nat) | Stop(c: nat) | RunContinues(c: nat) | RunWakes(c: nat)
    | ConnectReturns(c: nat, ok: bool) | BatchReturns(c: nat, ok: bool)
    | ReceiveRuns(c: nat) | ReceiveReturns(c: nat, replies: Option<nat>, more: bool) | ParseRuns(c: nat, tail: ParseTail)
    // the wire and Redis
    | Transmit(c: nat, k: nat) | RedisAnswers(c: nat, k: nat)

  predicate Init(w: World) {
    && w.channels != [] && (forall c :: 0 <= c < |w.channels| ==> w.channels[c] == NewChannel)
    && w.sessions == map[] && w.finished == [] && w.nextInc == 0 && w.fate == map[]
  }

  // ----- helpers -----

  function SetSession(w: World, a: Addr, s: Session): World { w.(sessions := w.sessions[a := s]) }

  function SetChannel(w: World, c: nat, ch: Channel): World
    requires c < |w.channels|
  {
    w.(channels := w.channels[c := ch])
  }

  function Settle(fate: map<Tag, Fate>, ts: set<Tag>, f: Fate): map<Tag, Fate> {
    map t | t in fate.Keys + ts :: if t in ts then f else fate[t]
  }

  function TagSet(q: seq<Tag>): set<Tag> { set t | t in q }

  /** Every command the given sessions still have in some channel. */
  function OwnedBy(chs: seq<Channel>, s: set<Addr>): set<Tag> {
    set c, a, t | 0 <= c < |chs| && a in s && t in Owned(chs[c], a) :: t
  }

  // ----- the pool -----

  /** The least-loaded healthy channel among the first `n`, the earliest on a tie. */
  function LeastLoaded(chs: seq<Channel>, n: nat): (r: Option<nat>)
    requires n <= |chs|
    ensures r.Some? ==> r.value < n
  {
    if n == 0 then None
    else
      var best := LeastLoaded(chs, n - 1);
      if chs[n - 1].state.Ready? && (best.None? || chs[n - 1].queuedCommands < chs[best.value].queuedCommands)
      then Some(n - 1) else best
  }

  /** `BackendPool::select`. */
  function Select(chs: seq<Channel>, current: Option<nat>): (r: Option<nat>)
    ensures r.Some? ==> r.value < |chs|
  {
    if current.None? then LeastLoaded(chs, |chs|)
    else if current.value < |chs| && chs[current.value].state.Ready? then current
    else None
  }

  function DetachAll(chs: seq<Channel>, s: set<Addr>): (r: seq<Channel>)
    ensures |r| == |chs| && forall c :: 0 <= c < |chs| ==> r[c] == Detach(chs[c], s)
  {
    seq(|chs|, c requires 0 <= c < |chs| => Detach(chs[c], s))
  }

  // ----- aborting and failing -----

  function Live(w: World, s: set<Addr>): set<Addr> {
    set a | a in s && a in w.sessions && !w.sessions[a].state.Aborted?
  }

  /** `abort` of every session in `s` that is not aborted yet. */
  function Abort(w: World, s: set<Addr>): World {
    var live := Live(w, s);
    w.(channels := DetachAll(w.channels, live),
       sessions := map a | a in w.sessions :: if a in live then AbortSession(w.sessions[a]) else w.sessions[a],
       fate := Settle(w.fate, OwnedBy(w.channels, live), Discarded))
  }

  /** The part of `failConnection` before the callbacks: the queues are emptied, the owners noted. */
  function LoseConnection(w: World, c: nat): World
    requires c < |w.channels|
  {
    var ch := w.channels[c];
    w.(channels := w.channels[c := Clear(ch)],
       sessions := map a | a in w.sessions ::
                     if a in Owners(ch) then w.sessions[a].(failures := w.sessions[a].failures + 1) else w.sessions[a],
       fate := Settle(w.fate, OwnedBy([ch], Owners(ch)), Failed))
  }

  /** `failConnection`: each distinct owner is told once. */
  function FailConnection(w: World, c: nat): World
    requires c < |w.channels|
  {
    if !w.channels[c].state.Ready? then w
    else Abort(LoseConnection(w, c), Owners(w.channels[c]))
  }

  /** `finishLoop`, given the session with its loop already marked as exited. */
  function FinishLoop(w: World, a: Addr, s: Session): World {
    var s' := EndLoop(s);
    if s'.activeLoops != 0 then SetSession(w, a, s')
    else w.(channels := DetachAll(w.channels, {a}),
            sessions := w.sessions[a := s'],
            fate := Settle(w.fate, OwnedBy(w.channels, {a}), Discarded),
            finished := w.finished + [a])
  }

  // ----- a session's reader -----

  /** `submitBatch` on the selected channel. */
  function SubmitBatch(w: World, a: Addr, c: nat, rs: seq<Request>): World
    requires a in w.sessions && c < |w.channels| && |FrameBytes(rs)| <= |w.sessions[a].clientIn|
  {
    var s := w.sessions[a];
    var tags := Range(s.inc, |s.requests|, |rs|);
    w.(channels := w.channels[c := Submit(w.channels[c], a, |rs|, tags, rs)],
       sessions := w.sessions[a := Take(s, rs, c)],
       fate := Settle(w.fate, TagSet(tags), Outstanding))
  }

  /** The rest of a reader turn, once the accepted prefix of the input is gone. */
  function AfterScan(s: Session, stop: Stop): Session
    requires stop.Refused? ==> |stop.frame| <= |s.clientIn|
  {
    match stop
    case Broken => Drain(s, PROTOCOL_ERROR)
    case Refused(frame, message) => Refuse(s, frame, message)
    case OutOfBudget => if s.clientIn != [] then s else s.(reader := Reading)
    case Starved => s.(reader := Reading)
  }

  function ReaderTurn(cfg: Config, w: World, a: Addr): World
    requires a in w.sessions && w.sessions[a].reader.ReaderTop? && w.sessions[a].state.Open?
  {
    var s := w.sessions[a];
    var (rs, stop) := Scan(cfg, s.clientIn, cfg.pipeline);
    ScanSound(cfg, s.clientIn, cfg.pipeline);
    if rs == [] then
      SetSession(w, a, AfterScan(s, stop))
    else match Select(w.channels, s.currentBackend)
      case None =>
        // the batch is refused and its bytes are gone
        var w' := Abort(w, {a});
        SetSession(w', a, w'.sessions[a].(clientIn := s.clientIn[|FrameBytes(rs)|..]))
      case Some(c) =>
        var w' := SubmitBatch(w, a, c, rs);
        SetSession(w', a, AfterScan(w'.sessions[a], stop))
  }

  // ----- a channel's replies -----

  /** `dispatchReply` of the first reply in the input. */
  function Dispatch(w: World, c: nat): World
    requires c < |w.channels| && w.channels[c].redisIn != []
  {
    var ch := w.channels[c];
    var t := ch.redisIn[0];
    if ch.pendingQueue == [] then
      FailConnection(SetChannel(w, c, ch.(redisIn := ch.redisIn[1..])), c)
    else
      var w' := SetChannel(w, c, Answered(ch));
      match ch.pendingQueue[0].owner
      case Some(a) =>
        if a in w.sessions then
          SetSession(w', a, OnBackendReply(w.sessions[a], t)).(fate := w.fate[t := Delivered])
        else w'
      case None => w'
  }

  // ----- events -----

  predicate Enabled(w: World, e: Event) {
    match e
    case ClientArrives(a) => a !in w.sessions
    case Reap => true
    case ReaderRuns(a) =>
      a in w.sessions && (w.sessions[a].reader.ReaderTop?
                          || (w.sessions[a].reader.Awaiting? && w.sessions[a].replySignal.waiter.Running?))
    case ReadReturns(a, _) => a in w.sessions && w.sessions[a].reader.Reading?
    case ReaderWakes(a) => a in w.sessions && w.sessions[a].replySignal.waiter.Woken?
    case WriterRuns(a) =>
      a in w.sessions && w.sessions[a].writer.WriterTop? && w.sessions[a].outputSignal.waiter.Running?
    case WriteReturns(a, _) => a in w.sessions && w.sessions[a].writer.Sending?
    case WriterWakes(a) => a in w.sessions && w.sessions[a].outputSignal.waiter.Woken?
    case Start(c) => c < |w.channels|
    case Stop(c) => c < |w.channels|
    case RunContinues(c) =>
      && c < |w.channels| && w.channels[c].writerSignal.waiter.Running?
      && var run := w.channels[c].run;
         run.RunTop? || run.BatchTop? || run.JoinTop? || run.Backoff?
    case RunWakes(c) => c < |w.channels| && w.channels[c].writerSignal.waiter.Woken?
    case ConnectReturns(c, _) => c < |w.channels| && w.channels[c].run.AtConnect?
    case BatchReturns(c, ok) => c < |w.channels| && w.channels[c].run.Writing? && (ok ==> w.channels[c].unsent == [])
    case ReceiveRuns(c) => c < |w.channels| && w.channels[c].reader.ReceiveTop?
    case ReceiveReturns(c, replies, _) =>
      && c < |w.channels| && w.channels[c].reader.Receiving?
      && (replies.Some? ==> replies.value <= |w.channels[c].inTransit|)
    case ParseRuns(c, tail) =>
      && c < |w.channels| && w.channels[c].reader.Parsing?
      && (!tail.Incomplete? ==> w.channels[c].leftover)
      && (tail.Unsolicited? ==> w.channels[c].pendingQueue == [])
    case Transmit(c, k) => c < |w.channels| && k <= |w.channels[c].unsent|
    case RedisAnswers(c, k) => c < |w.channels| && k <= |w.channels[c].atRedis|
  }

  function StepSession(cfg: Config, w: World, e: Event): World
    requires Enabled(w, e)
    requires e.ReaderRuns? || e.ReadReturns? || e.ReaderWakes? || e.WriterRuns? || e.WriteReturns? || e.WriterWakes?
  {
    var s := w.sessions[e.a];
    match e
    case ReaderRuns(a) =>
      if s.reader.Awaiting? then SetSession(w, a, AwaitReplies(s))
      else if s.state.Open? then ReaderTurn(cfg, w, a)
      else FinishLoop(w, a, s.(reader := ReaderExited))
    case ReadReturns(a, Data(bytes)) => SetSession(w, a, Feed(s, bytes))
    case ReadReturns(a, Eof) => SetSession(w, a, HangUp(s))
    case ReadReturns(a, ReadError) =>
      var w' := Abort(w, if s.state.Open? then {a} else {});
      SetSession(w', a, w'.sessions[a].(reader := ReaderTop))
    case ReaderWakes(a) => SetSession(w, a, s.(replySignal := s.replySignal.Resume()))
    case WriterRuns(a) =>
      if WriterDone(s) then FinishLoop(w, a, s.(writer := WriterExited)) else SetSession(w, a, WriteTurn(s))
    case WriteReturns(a, ok) =>
      var w' := Abort(w, if ok then {} else {a});
      SetSession(w', a, w'.sessions[a].(writer := WriterTop))
    case WriterWakes(a) => SetSession(w, a, s.(outputSignal := s.outputSignal.Resume()))
  }

  /** One step of `run`; a stopped or disconnected channel ends its connection here. */
  function RunStep(ch: Channel): Channel
    requires ch.run.RunTop? || ch.run.BatchTop? || ch.run.JoinTop? || ch.run.Backoff?
  {
    match ch.run
    case BatchTop =>
      if !ch.state.Ready? then ch.(run := JoinTop)
      else if ch.writeQueue == [] then ch.(writerSignal := ch.writerSignal.Wait())
      else TakeBatch(ch)
    case JoinTop => if ch.readerDone then Closed(ch) else ch.(writerSignal := ch.writerSignal.Wait())
    case _ => if ch.stopRequested then ch.(state := Stopped, run := Idle) else ch.(state := Connecting, run := AtConnect)
  }

  function Connected(ch: Channel, ok: bool): Channel {
    if ok && !ch.stopRequested then
      ch.(state := Ready, readerDone := false, reader := ReceiveTop, run := BatchTop, conn := Connection([], []))
    else Closed(ch)
  }

  function StepChannel(w: World, e: Event): World
    requires Enabled(w, e)
    requires !(e.ClientArrives? || e.Reap? || e.ReaderRuns? || e.ReadReturns? || e.ReaderWakes?
               || e.WriterRuns? || e.WriteReturns? || e.WriterWakes?)
  {
    var ch := w.channels[e.c];
    match e
    case Start(c) =>
      if ch.state.Stopped? then SetChannel(w, c, ch.(stopRequested := false, state := Connecting, run := RunTop)) else w
    case Stop(c) =>
      var w' := FailConnection(SetChannel(w, c, ch.(stopRequested := true)), c);
      SetChannel(w', c, w'.channels[c].(writerSignal := w'.channels[c].writerSignal.Notify()))
    case RunContinues(c) => SetChannel(w, c, RunStep(ch))
    case RunWakes(c) => SetChannel(w, c, ch.(writerSignal := ch.writerSignal.Resume()))
    case ConnectReturns(c, ok) => SetChannel(w, c, Connected(ch, ok))
    case BatchReturns(c, ok) =>
      var w' := if ok then w else FailConnection(w, c);
      SetChannel(w', c, w'.channels[c].(run := BatchTop, unsent := []))
    case ReceiveRuns(c) => SetChannel(w, c, if ch.state.Ready? then ch.(reader := Receiving) else EndReader(ch))
    case ReceiveReturns(c, replies, more) =>
      if ch.state.Ready? && replies.Some? then
        SetChannel(w, c, Received(ch, replies.value, more))
      else
        var w' := FailConnection(w, c);
        SetChannel(w', c, w'.channels[c].(reader := ReceiveTop, leftover := w'.channels[c].leftover || more))
    case ParseRuns(c, tail) =>
      if !ch.state.Ready? then SetChannel(w, c, ch.(reader := ReceiveTop))
      else if ch.redisIn != [] then Dispatch(w, c)
      else
        var w' := if tail.Incomplete? then w else FailConnection(w, c);
        SetChannel(w', c, w'.channels[c].(reader := ReceiveTop))
    case Transmit(c, k) => SetChannel(w, c, Transmitted(ch, k))
    case RedisAnswers(c, k) => SetChannel(w, c, Replied(ch, k))
  }

  function Step(cfg: Config, w: World, e: Event): World
    requires Enabled(w, e)
  {
    match e
    case ClientArrives(a) => SetSession(w, a, NewSession(w.nextInc)).(nextInc := w.nextInc + 1)
    case Reap => w.(sessions := w.sessions - (set a | a in w.finished), finished := [])
    case ReaderRuns(_) => StepSession(cfg, w, e)
    case ReadReturns(_, _) => StepSession(cfg, w, e)
    case ReaderWakes(_) => StepSession(cfg, w, e)
    case WriterRuns(_) => StepSession(cfg, w, e)
    case WriteReturns(_, _) => StepSession(cfg, w, e)
    case WriterWakes(_) => StepSession(cfg, w, e)
    case _ => StepChannel(w, e)
  }

  /** A run: the worlds it passes through and the events between them. */
  ghost predicate Run(cfg: Config, ws: seq<World>, es: seq<Event>) {
    && |ws| == |es| + 1
    && Init(ws[0])
    && forall i :: 0 <= i < |es| ==> Enabled(ws[i], es[i]) && ws[i + 1] == Step(cfg, ws[i], es[i])
  }
}
