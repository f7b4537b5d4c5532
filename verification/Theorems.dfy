/** What the invariant means for clients, channels and the worker, over whole runs. */
module Theorems {
  import opened Resp
  import opened Signals
  import opened Framing
  import opened Channels
  import opened Sessions
  import opened Proxy
  import opened ProxyInv
  import opened ProxySteps
  import opened ProxyFrames
  import RoundTrip

  // ----- what a client sees -----

  /** The replies a client is due for its requests, in request order. */
  function Answers(inc: nat, rs: seq<Request>): (r: seq<Reply>)
    ensures |r| == |rs| && forall i :: 0 <= i < |rs| ==> r[i] == Due(inc, i, rs[i])
  {
    seq(|rs|, i requires 0 <= i < |rs| => Due(inc, i, rs[i]))
  }

  /**
   Per-client order, end to end: on every run, what has been handed to the socket, and what has been
   queued for it, are prefixes of the answers to the requests contained in the bytes received --
   one reply each, in request order, backend replies for this session's own commands only,
   rejections in place, a fatal error last -- however the bytes were cut into reads.
   */
  lemma RepliesFollowRequests(cfg: Config, ws: seq<World>, es: seq<Event>, n: nat, a: Addr)
    requires cfg.Valid() && Run(cfg, ws, es) && n < |ws| && a in ws[n].sessions
    ensures var s := ws[n].sessions[a];
            && s.handed <= s.queued <= Answers(s.inc, s.requests)
            && s.requests <= Classify(cfg, s.received, s.eof)
            && s.queued <= Answers(s.inc, Classify(cfg, s.received, s.eof))
  {
    hide Run, Inv;
    RunInv(cfg, ws, es, n);
    var s := ws[n].sessions[a];
    LocalSession(cfg, ws[n], a);
    SessionAnswers(cfg, s);
  }

  lemma LocalSession(cfg: Config, w: World, a: Addr)
    requires Inv(cfg, w) && a in w.sessions
    ensures SessionInv(cfg, w.sessions[a])
  {
    hide Coupled, FateInv, Book, ChannelInv, SessionInv;
  }

  lemma SessionAnswers(cfg: Config, s: Session)
    requires SessionInv(cfg, s)
    ensures s.handed <= s.queued <= Answers(s.inc, s.requests)
    ensures s.requests <= Classify(cfg, s.received, s.eof)
    ensures s.queued <= Answers(s.inc, Classify(cfg, s.received, s.eof))
  {
    hide Peek, Classify, Judged, FrameBytes, RemainderInv;
    if s.state.Open? { OpenClassify(cfg, s, s.eof); }
    AnswersPrefix(s.inc, s.requests, Classify(cfg, s.received, s.eof));
  }

  lemma AnswersPrefix(inc: nat, rs: seq<Request>, all: seq<Request>)
    requires rs <= all
    ensures Answers(inc, rs) <= Answers(inc, all)
  {
  }

  /**
   Nothing is held back: a reader waiting for input has read every request received, and a session
   that ends without an abort has answered every request in its stream.
   */
  lemma NothingHeldBack(cfg: Config, ws: seq<World>, es: seq<Event>, n: nat, a: Addr)
    requires cfg.Valid() && Run(cfg, ws, es) && n < |ws| && a in ws[n].sessions
    ensures var s := ws[n].sessions[a];
            && (s.state.Open? && s.reader.Reading? ==> s.requests == Classify(cfg, s.received, s.eof))
            && (s.state.Draining? ==> s.requests == Classify(cfg, s.received, s.eof))
            && (s.writer.WriterExited? && !s.state.Aborted? ==>
                  s.handed == s.queued == Answers(s.inc, Classify(cfg, s.received, s.eof)))
  {
    hide Run, Inv;
    RunInv(cfg, ws, es, n);
    LocalSession(cfg, ws[n], a);
    SessionComplete(cfg, ws[n].sessions[a]);
  }

  lemma SessionComplete(cfg: Config, s: Session)
    requires SessionInv(cfg, s)
    ensures s.state.Open? && s.reader.Reading? ==> s.requests == Classify(cfg, s.received, s.eof)
    ensures s.state.Draining? ==> s.requests == Classify(cfg, s.received, s.eof)
    ensures s.writer.WriterExited? && !s.state.Aborted? ==>
              s.handed == s.queued == Answers(s.inc, Classify(cfg, s.received, s.eof))
  {
    hide Peek, Judged, FrameBytes;
    SessionAnswers(cfg, s);
    if s.state.Open? && s.reader.Reading? { OpenClassify(cfg, s, false); }
  }

  /** What a stream contains does not depend on the per-read command budget. */
  lemma {:induction false} BudgetDoesNotMatter(cfg: Config, pipeline: nat, s: Bytes, eof: bool)
    ensures Classify(cfg.(pipeline := pipeline), s, eof) == Classify(cfg, s, eof)
    decreases |s|
  {
    hide Unpacked;
    var p := Peek(cfg, s);
    assert Peek(cfg.(pipeline := pipeline), s) == p;
    if p.Command? { BudgetDoesNotMatter(cfg, pipeline, s[p.consumed..], eof); }
  }

  /** The reader has nothing left to do with the bytes received so far. */
  predicate CaughtUp(s: Session) { s.state.Draining? || (s.state.Open? && s.reader.Reading?) }

  /**
   Chunking independence: two sessions that have received the same bytes, on any two runs, with any
   reads, interleavings, failures and budgets, have made the same requests of them once they have
   caught up -- and before that, neither contradicts the other.
   */
  lemma SameBytesSameRequests(cfg: Config, ws: seq<World>, es: seq<Event>, n: nat, a: Addr,
                              pipeline: nat, ws': seq<World>, es': seq<Event>, n': nat, a': Addr)
    requires cfg.Valid() && Run(cfg, ws, es) && n < |ws| && a in ws[n].sessions
    requires cfg.(pipeline := pipeline).Valid() && Run(cfg.(pipeline := pipeline), ws', es') && n' < |ws'| && a' in ws'[n'].sessions
    requires ws[n].sessions[a].received == ws'[n'].sessions[a'].received && ws[n].sessions[a].eof == ws'[n'].sessions[a'].eof
    ensures var s, s' := ws[n].sessions[a], ws'[n'].sessions[a'];
            && (s.requests <= s'.requests || s'.requests <= s.requests)
            && (CaughtUp(s) && CaughtUp(s') ==> s.requests == s'.requests)
  {
    hide Run, Classify;
    var s := ws[n].sessions[a];
    RepliesFollowRequests(cfg, ws, es, n, a);
    NothingHeldBack(cfg, ws, es, n, a);
    RepliesFollowRequests(cfg.(pipeline := pipeline), ws', es', n', a');
    NothingHeldBack(cfg.(pipeline := pipeline), ws', es', n', a');
    BudgetDoesNotMatter(cfg, pipeline, s.received, s.eof);
  }

  /** The reply to the `i`-th command of a pipeline. */
  function CommandReply(cfg: Config, inc: nat, cmds: seq<seq<Bytes>>, i: nat): Reply
    requires i < |cmds| && cmds[i] != []
  {
    var verdict := cfg.rules(cmds[i][0], |cmds[i]|);
    if verdict.Allowed? then FromBackend(Tag(inc, i)) else ErrorReply(Complaint(verdict))
  }

  /**
   From the client's side: whoever sends a pipeline of commands and closes has, when the session ends
   without an abort, been sent one reply for each command, in order -- Redis's for the commands the
   table allows, the table's complaint for the others -- and nothing else.
   */
  lemma PipelineGetsItsAnswers(cfg: Config, ws: seq<World>, es: seq<Event>, n: nat, a: Addr, cmds: seq<seq<Bytes>>)
    requires cfg.Valid() && Run(cfg, ws, es) && n < |ws| && a in ws[n].sessions && RoundTrip.Sendable(cfg, cmds)
    requires var s := ws[n].sessions[a];
             s.received == RoundTrip.Wire(cmds) && s.writer.WriterExited? && !s.state.Aborted?
    ensures var s := ws[n].sessions[a];
            |s.handed| == |cmds| && forall i :: 0 <= i < |cmds| ==> s.handed[i] == CommandReply(cfg, s.inc, cmds, i)
  {
    hide Run, Peek, Classify, RoundTrip.Wire, RoundTrip.Frame;
    NothingHeldBack(cfg, ws, es, n, a);
    var s := ws[n].sessions[a];
    RoundTrip.PipelineIsItsCommands(cfg, cmds, [], s.eof);
    assert s.received + [] == s.received;
    NothingToClassify(cfg, s.eof);
    var rs := Classify(cfg, s.received, s.eof);
    assert |rs| == |cmds| && forall i :: 0 <= i < |cmds| ==> rs[i] == RoundTrip.Judgement(cfg, cmds[i]);
  }

  lemma NothingToClassify(cfg: Config, eof: bool)
    requires cfg.Valid()
    ensures Classify(cfg, [], eof) == []
  {
    PeekEmpty(cfg);
  }

  // ----- whose reply is whose -----

  /** The owner of the `k`-th reply slot, counting with the numbers the code keeps. */
  function SlotOwner(q: seq<PendingBatch>, k: nat): Option<Addr> {
    if q == [] then None
    else if k < q[0].remaining then q[0].owner
    else SlotOwner(q[1..], if q[0].remaining < 0 then k else k - q[0].remaining)
  }

  lemma {:induction false} SlotTag(q: seq<PendingBatch>, k: nat)
    requires forall i :: 0 <= i < |q| ==> 0 < q[i].remaining == |q[i].tags|
    requires k < |PendingTags(q)|
    ensures SlotOwner(q, k).Some? ==> PendingTags(q)[k] in OwnedPending(q, SlotOwner(q, k).value)
    ensures SlotOwner(q, k).None? ==>
              exists i :: 0 <= i < |q| && q[i].owner.None? && PendingTags(q)[k] in q[i].tags
  {
    if k >= q[0].remaining {
      SlotTag(q[1..], k - q[0].remaining);
      if SlotOwner(q, k).None? {
        var i :| 0 <= i < |q[1..]| && q[1..][i].owner.None? && PendingTags(q)[k] in q[1..][i].tags;
        assert q[i + 1].owner.None? && PendingTags(q)[k] in q[i + 1].tags;
      }
    }
  }

  /**
   Isolation: on every run, on a live connection, the `k`-th answer Redis owes -- or the `k`-th
   command it has yet to receive -- fills the `k`-th reply slot; the slot belongs to the session
   that asked and still waits, or to nobody if that session has left.
   */
  lemma EverySlotIsRight(cfg: Config, ws: seq<World>, es: seq<Event>, n: nat, c: nat, k: nat)
    requires cfg.Valid() && Run(cfg, ws, es) && n < |ws| && c < |ws[n].channels|
    requires ws[n].channels[c].state.Ready? && k < |Unanswered(ws[n].channels[c])|
    ensures var w, ch := ws[n], ws[n].channels[c];
            var t, owner := Unanswered(ch)[k], SlotOwner(ch.pendingQueue, k);
            && (owner.Some? ==> owner.value in w.sessions && Waits(w.sessions[owner.value], t)
                                && w.sessions[owner.value].currentBackend == Some(c))
            && (owner.None? ==> t in w.fate && w.fate[t].Discarded?)
  {
    hide Run, SessionInv, FateInv, Coupled, Book, Owned, Unanswered;
    RunInv(cfg, ws, es, n);
    var w, ch := ws[n], ws[n].channels[c];
    LocalChannel(cfg, w, c);
    SlotTag(ch.pendingQueue, k);
    SlotMeaning(cfg, w, c, k);
  }

  lemma SlotMeaning(cfg: Config, w: World, c: nat, k: nat)
    requires Inv(cfg, w) && c < |w.channels| && k < |PendingTags(w.channels[c].pendingQueue)|
    requires ChannelInv(w.channels[c])
    ensures var q := w.channels[c].pendingQueue;
            var t, owner := PendingTags(q)[k], SlotOwner(q, k);
            && (owner.Some? ==> owner.value in w.sessions && Waits(w.sessions[owner.value], t)
                                && w.sessions[owner.value].currentBackend == Some(c))
            && (owner.None? ==> t in w.fate && w.fate[t].Discarded?)
  {
    hide SessionInv, Coupled, Book, ControlInv, ChannelAwake, Waits, AcceptedFate;
    var ch := w.channels[c];
    SlotTag(ch.pendingQueue, k);
    var t, owner := PendingTags(ch.pendingQueue)[k], SlotOwner(ch.pendingQueue, k);
    if owner.Some? {
      OwnedWaits(cfg, w, {}, c, owner.value, t);
    } else {
      assert Orphan(ch, t);
    }
  }

  /**
   Every reply that is dispatched goes to the session that asked, as the answer to its oldest
   unanswered request; "unexpected redis reply" never happens on a solicited reply.
   */
  lemma DispatchIsRight(cfg: Config, ws: seq<World>, es: seq<Event>, n: nat, c: nat)
    requires cfg.Valid() && Run(cfg, ws, es) && n < |ws| && c < |ws[n].channels|
    requires ws[n].channels[c].state.Ready? && ws[n].channels[c].redisIn != []
    ensures var w, ch := ws[n], ws[n].channels[c];
            && ch.pendingQueue != []
            && (ch.pendingQueue[0].owner.Some? ==>
                  var a := ch.pendingQueue[0].owner.value;
                  && a in w.sessions && !w.sessions[a].state.Aborted? && w.sessions[a].activeLoops > 0
                  && w.sessions[a].pendingReplies > 0
                  && |w.sessions[a].queued| < |w.sessions[a].requests| && a in Dispatch(w, c).sessions
                  && Dispatch(w, c).sessions[a].queued
                     == w.sessions[a].queued + [Due(w.sessions[a].inc, |w.sessions[a].queued|,
                                                    w.sessions[a].requests[|w.sessions[a].queued|])])
    ensures ws[n].channels[c].pendingQueue != []
            && var w, w', owner := ws[n], Dispatch(ws[n], c), ws[n].channels[c].pendingQueue[0].owner;
               && w'.sessions.Keys == w.sessions.Keys
               && forall a :: a in w.sessions && owner != Some(a) ==> w'.sessions[a] == w.sessions[a]
  {
    hide Run, SessionInv, FateInv, Book, ChannelInv, Coupled;
    RunInv(cfg, ws, es, n);
    var w := ws[n];
    DispatchTarget(cfg, w, c);
    var owner := w.channels[c].pendingQueue[0].owner;
    if owner.Some? {
      LocalSession(cfg, w, owner.value);
      SessionParts(cfg, w.sessions[owner.value]);
    }
  }

  // ----- counters and queues -----

  function PendingCommands(q: seq<PendingBatch>, a: Addr): int {
    if q == [] then 0 else (if q[0].owner == Some(a) then q[0].remaining else 0) + PendingCommands(q[1..], a)
  }

  function WriteCommands(q: seq<RequestBatch>, a: Addr): int {
    if q == [] then 0 else (if q[0].owner == a then q[0].count else 0) + WriteCommands(q[1..], a)
  }

  /** The commands of `a` in this channel, by the counts the code keeps. */
  function CommandsOf(ch: Channel, a: Addr): int { PendingCommands(ch.pendingQueue, a) + WriteCommands(ch.writeQueue, a) }

  lemma {:induction false} PendingCommandsCount(q: seq<PendingBatch>, a: Addr)
    requires forall i :: 0 <= i < |q| ==> q[i].remaining == |q[i].tags|
    ensures PendingCommands(q, a) == |OwnedPending(q, a)|
  {
    if q != [] { PendingCommandsCount(q[1..], a); }
  }

  lemma {:induction false} WriteCommandsCount(q: seq<RequestBatch>, a: Addr)
    requires forall i :: 0 <= i < |q| ==> q[i].count == |q[i].tags|
    ensures WriteCommands(q, a) == |OwnedWrites(q, a)|
  {
    if q != [] { WriteCommandsCount(q[1..], a); }
  }

  /**
   The coupling of sessions and channels: every session's `pending_replies_` is the number of its
   commands in the one channel it is pinned to, it has none elsewhere, an address without a session
   has none anywhere, and a pinned session's channel is healthy.
   */
  lemma CountersMatchQueues(cfg: Config, ws: seq<World>, es: seq<Event>, n: nat, c: nat, a: Addr)
    requires cfg.Valid() && Run(cfg, ws, es) && n < |ws| && c < |ws[n].channels|
    ensures var w := ws[n];
            && (a !in w.sessions ==> CommandsOf(w.channels[c], a) == 0)
            && (a in w.sessions ==>
                  var s := w.sessions[a];
                  && CommandsOf(w.channels[c], a) == (if s.currentBackend == Some(c) then s.pendingReplies else 0)
                  && s.pendingReplies >= 0
                  && (s.currentBackend.None? <==> s.pendingReplies == 0)
                  && (s.state.Aborted? ==> s.pendingReplies == 0)
                  && (s.currentBackend == Some(c) ==> w.channels[c].state.Ready?))
  {
    hide Run, SessionInv, FateInv, Book, Owned;
    RunInv(cfg, ws, es, n);
    var w, ch := ws[n], ws[n].channels[c];
    OwnedCount(ch, a);
    assert Owned(ch, a) == Share(w, {}, c, a);
    if a in w.sessions { SessionParts(cfg, w.sessions[a]); }
  }

  lemma OwnedCount(ch: Channel, a: Addr)
    requires ChannelInv(ch)
    ensures CommandsOf(ch, a) == |Owned(ch, a)|
    ensures !ch.state.Ready? ==> Owned(ch, a) == []
  {
    PendingCommandsCount(ch.pendingQueue, a);
    WriteCommandsCount(ch.writeQueue, a);
  }

  /** A submit is refused exactly when no channel is healthy and the session waits for nothing. */
  lemma RefusedOnlyWithoutBackends(cfg: Config, ws: seq<World>, es: seq<Event>, n: nat, a: Addr)
    requires cfg.Valid() && Run(cfg, ws, es) && n < |ws| && a in ws[n].sessions
    ensures var w, s := ws[n], ws[n].sessions[a];
            Select(w.channels, s.currentBackend).None?
            <==> s.pendingReplies == 0 && forall c :: 0 <= c < |w.channels| ==> !w.channels[c].state.Ready?
  {
    hide Run, SessionInv, FateInv, Book, ChannelInv;
    RunInv(cfg, ws, es, n);
    var w, s := ws[n], ws[n].sessions[a];
    LocalSession(cfg, w, a);
    SessionParts(cfg, s);
    LeastLoadedReady(w.channels, |w.channels|);
    if s.currentBackend.Some? { CountersMatchQueues(cfg, ws, es, n, s.currentBackend.value, a); }
  }

  /** Channel bookkeeping: the load counter is exact, and a channel that is not ready holds nothing. */
  lemma LoadIsExact(cfg: Config, ws: seq<World>, es: seq<Event>, n: nat, c: nat)
    requires cfg.Valid() && Run(cfg, ws, es) && n < |ws| && c < |ws[n].channels|
    ensures var ch := ws[n].channels[c];
            && ch.queuedCommands == WriteCount(ch.writeQueue) + PendingCount(ch.pendingQueue)
            && ch.queuedCommands >= 0
            && (!ch.state.Ready? ==> ch.writeQueue == [] && ch.pendingQueue == [] && ch.queuedCommands == 0)
            && (ch.state.Ready? ==> PendingCount(ch.pendingQueue) == |Unanswered(ch)|)
  {
    hide Run, Inv;
    RunInv(cfg, ws, es, n);
    var ch := ws[n].channels[c];
    LocalChannel(cfg, ws[n], c);
    CountsArePositive(ch.writeQueue, ch.pendingQueue);
  }

  lemma {:induction false} CountsArePositive(q: seq<RequestBatch>, p: seq<PendingBatch>)
    requires forall i :: 0 <= i < |q| ==> 0 < q[i].count
    requires forall i :: 0 <= i < |p| ==> 0 < p[i].remaining == |p[i].tags|
    ensures WriteCount(q) >= 0 && PendingCount(p) == |PendingTags(p)|
    decreases |q| + |p|
  {
    if q != [] { CountsArePositive(q[1..], p); }
    else if p != [] { CountsArePositive(q, p[1..]); }
  }

  // ----- lifetimes -----

  /**
   Every owner in every queue is a living, unfinished session that still waits there, and
   completion is reported exactly once, when both loops have exited.
   */
  lemma OwnersAreAlive(cfg: Config, ws: seq<World>, es: seq<Event>, n: nat, a: Addr)
    requires cfg.Valid() && Run(cfg, ws, es) && n < |ws|
    ensures forall c :: 0 <= c < |ws[n].channels| && a in Owners(ws[n].channels[c]) ==>
              a in ws[n].sessions && ws[n].sessions[a].activeLoops > 0 && ws[n].sessions[a].currentBackend == Some(c)
    ensures a in ws[n].sessions ==>
              && ws[n].sessions[a].finishes == (if ws[n].sessions[a].activeLoops == 0 then 1 else 0)
              && (a in ws[n].finished <==> ws[n].sessions[a].activeLoops == 0)
    ensures Distinct(ws[n].finished)
  {
    hide Run, SessionInv, FateInv, ChannelInv, Coupled, Owners;
    RunInv(cfg, ws, es, n);
    forall c | 0 <= c < |ws[n].channels| && a in Owners(ws[n].channels[c])
      ensures a in ws[n].sessions && ws[n].sessions[a].activeLoops > 0 && ws[n].sessions[a].currentBackend == Some(c)
    {
      OwnerIsHere(cfg, ws[n], c, a);
    }
    if a in ws[n].sessions { SessionParts(cfg, ws[n].sessions[a]); }
  }

  // ----- sleepers -----

  /** No wake-up is lost: whoever sleeps unsignalled has, in fact, nothing to do. */
  lemma NoLostWakeUps(cfg: Config, ws: seq<World>, es: seq<Event>, n: nat)
    requires cfg.Valid() && Run(cfg, ws, es) && n < |ws|
    ensures forall c :: 0 <= c < |ws[n].channels| ==> ChannelAwake(ws[n].channels[c])
    ensures forall a :: a in ws[n].sessions ==> SessionAwake(ws[n].sessions[a])
  {
    hide Run, FateInv, Book, Coupled, ControlInv, QueueInv, OrderInv, OutputInv, FramingInv, LoopInv;
    RunInv(cfg, ws, es, n);
  }

  // ----- connections -----

  /** A connection starts clean: nothing queued, nothing owed, no reader left from the one before. */
  lemma ConnectionsStartClean(cfg: Config, ws: seq<World>, es: seq<Event>, n: nat, c: nat)
    requires cfg.Valid() && Run(cfg, ws, es) && n < |es|
    requires c < |ws[n].channels| && c < |ws[n + 1].channels|
    requires !ws[n].channels[c].state.Ready? && ws[n + 1].channels[c].state.Ready?
    ensures es[n] == ConnectReturns(c, true) && ws[n].channels[c].reader.NoReader?
    ensures var ch := ws[n + 1].channels[c];
            && ch.writeQueue == [] && ch.pendingQueue == [] && Unanswered(ch) == [] && ch.queuedCommands == 0
            && !ch.leftover && ch.conn == Connection([], [])
  {
    hide Inv, QueueInv;
    RunInv(cfg, ws, es, n);
    LocalChannel(cfg, ws[n], c);
    BecomesReady(cfg, ws[n], es[n], c);
    EmptyQueues(ws[n].channels[c]);
  }

  lemma EmptyQueues(ch: Channel)
    requires QueueInv(ch) && !ch.state.Ready?
    ensures ch.writeQueue == [] && ch.pendingQueue == [] && ch.queuedCommands == 0
  {
  }

  lemma BecomesReady(cfg: Config, w: World, e: Event, c: nat)
    requires cfg.Valid() && Inv(cfg, w) && Enabled(w, e) && c < |w.channels| && c < |Step(cfg, w, e).channels|
    requires !w.channels[c].state.Ready? && Step(cfg, w, e).channels[c].state.Ready?
    ensures e == ConnectReturns(c, true) && !w.channels[c].stopRequested
    ensures Step(cfg, w, e).channels[c] == Connected(w.channels[c], true)
  {
    hide Inv, StepSession, TakeBatch, FailConnection, Dispatch;
    if !(e.ClientArrives? || e.Reap? || e.Start? || e.RunContinues? || e.ConnectReturns?) {
      hide StepChannel;
      StepFrame(cfg, w, e);
    }
  }

  // ----- the fate of a command -----

  /** One event never changes a settled fate, and only an open session's reader adds commands. */
  lemma StepFate(cfg: Config, w: World, e: Event)
    requires cfg.Valid() && Inv(cfg, w) && Enabled(w, e)
    ensures Grows(w.fate, Step(cfg, w, e).fate)
    ensures forall t :: t in Step(cfg, w, e).fate && t !in w.fate ==>
              && e.ReaderRuns? && e.a in w.sessions
              && w.sessions[e.a].inc == t.inc && w.sessions[e.a].state.Open?
  {
    hide Inv, StepSession, FailConnection, Dispatch, RunStep, Grows;
    if e.ClientArrives? || e.Reap? || e.Start? || e.RunContinues? || e.ConnectReturns? {
      GrowsSelf(w.fate);
    } else {
      hide StepChannel;
      StepFrame(cfg, w, e);
      FrameFate(cfg, w, e);
    }
  }

  lemma GrowsSelf(f: map<Tag, Fate>)
    ensures Grows(f, f)
  {
  }

  lemma FrameFate(cfg: Config, w: World, e: Event)
    requires Enabled(w, e) && Frame(w, Step(cfg, w, e), Accepting(w, e))
    ensures Grows(w.fate, Step(cfg, w, e).fate)
    ensures forall t :: t in Step(cfg, w, e).fate && t !in w.fate ==>
              && e.ReaderRuns? && e.a in w.sessions
              && w.sessions[e.a].inc == t.inc && w.sessions[e.a].state.Open?
  {
    hide Step;
  }

  /**
   Conservation over a run: a command that has been answered, discarded or failed stays so for ever
   -- it is never answered later, on this connection or another -- and none disappears.
   */
  lemma {:induction false} FatesAreFinal(cfg: Config, ws: seq<World>, es: seq<Event>, m: nat, n: nat)
    requires cfg.Valid() && Run(cfg, ws, es) && m <= n < |ws|
    ensures Grows(ws[m].fate, ws[n].fate)
    decreases n - m
  {
    hide Inv, Enabled, Step;
    if m < n {
      FatesAreFinal(cfg, ws, es, m, n - 1);
      RunInv(cfg, ws, es, n - 1);
      StepFate(cfg, ws[n - 1], es[n - 1]);
    }
  }

  /** The command waits in some queue under the name of some session. */
  ghost predicate Queued(w: World, t: Tag) {
    exists c, a :: 0 <= c < |w.channels| && t in Owned(w.channels[c], a)
  }

  lemma OutstandingIffQueued(cfg: Config, w: World, t: Tag)
    requires Inv(cfg, w) && t in w.fate
    ensures w.fate[t].Outstanding? <==> Queued(w, t)
  {
    hide SessionInv, ChannelInv, Owned, FateKnown, FateOrphans;
    if w.fate[t].Outstanding? {
      var a :| a in w.sessions && a !in {} && Waits(w.sessions[a], t);
      WaitsOwned(cfg, w, {}, a, t);
    }
    if c, a :| 0 <= c < |w.channels| && t in Owned(w.channels[c], a) {
      OwnedWaits(cfg, w, {}, c, a, t);
      assert AcceptedFate(w, {}, a, t.index);
    }
  }

  /** What the fate of a command says about the session that sent it, if that session still lives. */
  lemma FateOfLiving(cfg: Config, w: World, t: Tag, b: Addr)
    requires Inv(cfg, w) && t in w.fate && b in w.sessions && w.sessions[b].inc == t.inc
    ensures var s := w.sessions[b];
            && t.index < |s.requests| && s.requests[t.index].Accept?
            && (w.fate[t].Delivered? <==> t.index < |s.queued|)
            && (w.fate[t].Discarded? || w.fate[t].Failed? ==> s.state.Aborted?)
  {
    hide SessionInv, ChannelInv, Coupled, FateWaits, FateOrphans;
    assert AcceptedFate(w, {}, b, t.index);
  }

  /**
   Conservation: a request accepted at any moment of a run has a fate at every later one, whether or
   not its session still exists.  It is outstanding exactly while some queue holds it, which takes a
   living session; a living session's command is delivered exactly when its reply has been queued,
   and discarded or failed only if the session has been aborted.
   */
  lemma EveryCommandAccountedFor(cfg: Config, ws: seq<World>, es: seq<Event>, m: nat, n: nat, a: Addr, i: nat)
    requires cfg.Valid() && Run(cfg, ws, es) && m <= n < |ws| && a in ws[m].sessions
    requires i < |ws[m].sessions[a].requests| && ws[m].sessions[a].requests[i].Accept?
    ensures var t, w := Tag(ws[m].sessions[a].inc, i), ws[n];
            && t in w.fate
            && (w.fate[t].Outstanding? <==> Queued(w, t))
            && (w.fate[t].Outstanding? ==> exists b :: b in w.sessions && Waits(w.sessions[b], t))
            && (forall b :: b in w.sessions && w.sessions[b].inc == t.inc ==>
                  var s := w.sessions[b];
                  && (w.fate[t].Delivered? <==> i < |s.queued|)
                  && (w.fate[t].Discarded? || w.fate[t].Failed? ==> s.state.Aborted?))
  {
    hide Run, Local, Coupled, Book, FateKnown, FateOrphans, Queued;
    RunInv(cfg, ws, es, m);
    RunInv(cfg, ws, es, n);
    FatesAreFinal(cfg, ws, es, m, n);
    var t, w := Tag(ws[m].sessions[a].inc, i), ws[n];
    assert AcceptedFate(ws[m], {}, a, i);
    OutstandingIffQueued(cfg, w, t);
    forall b | b in w.sessions && w.sessions[b].inc == t.inc
      ensures w.fate[t].Delivered? <==> i < |w.sessions[b].queued|
      ensures w.fate[t].Discarded? || w.fate[t].Failed? ==> w.sessions[b].state.Aborted?
    {
      FateOfLiving(cfg, w, t, b);
    }
  }

  /** A session that has reported completion is left alone until the worker removes it. */
  lemma FinishedAreLeftAlone(cfg: Config, ws: seq<World>, es: seq<Event>, n: nat, a: Addr)
    requires cfg.Valid() && Run(cfg, ws, es) && n < |es|
    requires a in ws[n].sessions && ws[n].sessions[a].activeLoops == 0
    ensures if es[n].Reap? then a !in ws[n + 1].sessions
            else a in ws[n + 1].sessions && ws[n + 1].sessions[a] == ws[n].sessions[a]
  {
    hide Inv, Step, Enabled;
    RunInv(cfg, ws, es, n);
    FinishedStep(cfg, ws[n], es[n], a);
  }

  lemma FinishedStep(cfg: Config, w: World, e: Event, a: Addr)
    requires cfg.Valid() && Inv(cfg, w) && Enabled(w, e)
    requires a in w.sessions && w.sessions[a].activeLoops == 0
    ensures if e.Reap? then a !in Step(cfg, w, e).sessions
            else a in Step(cfg, w, e).sessions && Step(cfg, w, e).sessions[a] == w.sessions[a]
  {
    hide StepSession, FailConnection, Dispatch, RunStep, Local, Coupled, FateInv;
    if !(e.ClientArrives? || e.Reap? || e.Start? || e.RunContinues? || e.ConnectReturns?) {
      hide StepChannel;
      StepFrame(cfg, w, e);
    }
  }

  /**
   When a connection fails, each distinct owner of outstanding commands is told exactly once and is
   aborted, everybody else is untouched, and exactly the owners' commands there are marked failed.
   */
  lemma FailureTellsOwnersOnce(cfg: Config, ws: seq<World>, es: seq<Event>, n: nat, c: nat, a: Addr)
    requires cfg.Valid() && Run(cfg, ws, es) && n < |ws| && c < |ws[n].channels| && a in ws[n].sessions
    requires ws[n].channels[c].state.Ready?
    ensures var w := ws[n];
            var w' := FailConnection(w, c);
            && a in w'.sessions
            && (a in Owners(w.channels[c]) ==>
                  w'.sessions[a].failures == w.sessions[a].failures + 1 && w'.sessions[a].state.Aborted?)
            && (a !in Owners(w.channels[c]) ==> w'.sessions[a] == w.sessions[a])
            && (forall t :: t in Owned(w.channels[c], a) ==> t in w'.fate && w'.fate[t].Failed?)
            && (forall t :: t in w'.fate && w'.fate[t].Failed? ==>
                  (t in w.fate && w.fate[t].Failed?) || t in OwnedBy([w.channels[c]], Owners(w.channels[c])))
  {
    hide Run, SessionInv, FateInv, Book, ChannelInv, Coupled, Owned, Owners;
    RunInv(cfg, ws, es, n);
    var w := ws[n];
    OnlyOwnersFail(w, c);
    if a in Owners(w.channels[c]) { OwnerIsHere(cfg, w, c, a); }
    forall t | t in Owned(w.channels[c], a)
      ensures t in FailConnection(w, c).fate && FailConnection(w, c).fate[t].Failed?
    {
      FailedStayFailed(cfg, w, c, a, t);
    }
  }

  lemma OnlyOwnersFail(w: World, c: nat)
    requires c < |w.channels| && w.channels[c].state.Ready?
    ensures var w' := FailConnection(w, c);
            forall t :: t in w'.fate && w'.fate[t].Failed? ==>
              (t in w.fate && w.fate[t].Failed?) || t in OwnedBy([w.channels[c]], Owners(w.channels[c]))
  {
    hide OwnedBy, Owners, DetachAll, AbortSession, Clear;
  }

  lemma FailedStayFailed(cfg: Config, w: World, c: nat, a: Addr, t: Tag)
    requires Inv(cfg, w) && c < |w.channels| && w.channels[c].state.Ready? && t in Owned(w.channels[c], a)
    ensures t in FailConnection(w, c).fate && FailConnection(w, c).fate[t].Failed?
  {
    hide Local, FateInv, Book, Coupled, Owned, Owners, Abort, OwnedBy;
    var w1 := LoseConnection(w, c);
    LocalChannel(cfg, w, c);
    OwnersByOwned(w.channels[c], a);
    OwnedIsLost(w.channels[c], a, t);
    assert t in w1.fate && w1.fate[t].Failed?;
    LoseLocal(cfg, w, c);
    LoseCoupled(cfg, w, c);
    LoseFate(cfg, w, c);
    LoseBook(w, c);
    AbortGrows(cfg, w1, Owners(w.channels[c]), Owners(w.channels[c]));
  }

  lemma OwnersByOwned(ch: Channel, a: Addr)
    requires ChannelInv(ch)
    ensures Owned(ch, a) != [] ==> a in Owners(ch)
  {
    OwnedIffOwner(ch, a);
  }
}
