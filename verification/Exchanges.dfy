/** What passes between sessions and channels, over whole runs: batches one way, replies and failures the other. */
module Exchanges {
  import opened Resp
  import opened Signals
  import opened Framing
  import opened Channels
  import opened Sessions
  import opened Proxy
  import opened ProxyInv
  import opened ProxySteps
  import opened ChannelCauses
  import opened SessionCauses
  import Theorems

  // ----- failures -----

  /** When a connection is lost, every session that waits on it is told, once, and aborted, and its commands there have failed. */
  lemma LossReachesOwners(cfg: Config, ws: seq<World>, es: seq<Event>, n: nat, c: nat, a: Addr)
    requires cfg.Valid() && Run(cfg, ws, es) && n < |es| && c < |ws[n].channels| && c < |ws[n + 1].channels|
    requires ws[n].channels[c].state.Ready? && !ws[n + 1].channels[c].state.Ready? && a in Owners(ws[n].channels[c])
    ensures a in ws[n].sessions && a in ws[n + 1].sessions
    ensures ws[n + 1].sessions[a].failures == ws[n].sessions[a].failures + 1 && ws[n + 1].sessions[a].state.Aborted?
    ensures forall t :: t in Owned(ws[n].channels[c], a) ==> t in ws[n + 1].fate && ws[n + 1].fate[t].Failed?
  {
    hide Run, Inv, Owners, Owned;
    RunLength(cfg, ws, es);
    ConnectionLostIff(cfg, ws, es, n, c);
    RunInv(cfg, ws, es, n);
    OwnersLive(cfg, ws[n], c, a);
    Bystander(cfg, ws, es, n, a);
    OwnersAreTold(cfg, ws, es, n, a);
    forall t | t in Owned(ws[n].channels[c], a) ensures t in ws[n + 1].fate && ws[n + 1].fate[t].Failed? {
      LossFails(cfg, ws, es, n, c, a, t);
    }
  }

  lemma LossFails(cfg: Config, ws: seq<World>, es: seq<Event>, n: nat, c: nat, a: Addr, t: Tag)
    requires cfg.Valid() && Run(cfg, ws, es) && n < |es| && c < |ws[n].channels| && ws[n].channels[c].state.Ready?
    requires Breaks(ws[n].channels[c], es[n], c) && t in Owned(ws[n].channels[c], a)
    ensures t in ws[n + 1].fate && ws[n + 1].fate[t].Failed?
  {
    hide Inv, StepSession, FailConnection, Dispatch, Owned;
    var w, e, ch := ws[n], es[n], ws[n].channels[c];
    RunInv(cfg, ws, es, n);
    if e.Stop? {
      var stopped := ch.(stopRequested := true);
      LocalChannel(cfg, w, c);
      SmallChannelSteps(ch);
      QueuesAlone(cfg, w, c, stopped);
      SameOwned(ch, a);
      Theorems.FailedStayFailed(cfg, SetChannel(w, c, stopped), c, a, t);
    } else {
      Theorems.FailedStayFailed(cfg, w, c, a, t);
    }
  }

  lemma SameOwned(ch: Channel, a: Addr)
    ensures Owned(ch.(stopRequested := true), a) == Owned(ch, a)
  {
  }

  // ----- replies -----

  /**
   Each turn of a ready channel's parser with a reply in its input uses up that reply and the first slot, and
   the session the slot belongs to, if it has not left, is handed it as the answer it has waited for longest.
   */
  lemma ReplyIsPassedOn(cfg: Config, ws: seq<World>, es: seq<Event>, n: nat, c: nat)
    requires cfg.Valid() && Run(cfg, ws, es) && n < |es| && es[n].ParseRuns? && es[n].c == c && c < |ws[n].channels|
    requires ws[n].channels[c].state.Ready? && ws[n].channels[c].redisIn != []
    ensures |ws[n + 1].channels| == |ws[n].channels| && ws[n].channels[c].pendingQueue != []
    ensures var ch, ch' := ws[n].channels[c], ws[n + 1].channels[c];
            && ch'.redisIn == ch.redisIn[1..] && ch'.queuedCommands == ch.queuedCommands - 1
            && PendingTags(ch.pendingQueue) == [ch.redisIn[0]] + PendingTags(ch'.pendingQueue) && ch'.writeQueue == ch.writeQueue
    ensures forall a :: ws[n].channels[c].pendingQueue[0].owner == Some(a) ==>
              && a in ws[n].sessions && a in ws[n + 1].sessions
              && var s, s' := ws[n].sessions[a], ws[n + 1].sessions[a];
                 && s'.queued == s.queued + [FromBackend(Tag(s.inc, |s.queued|))] && s'.pendingReplies == s.pendingReplies - 1
                 && ws[n].channels[c].redisIn[0] == Tag(s.inc, |s.queued|)
  {
    hide Inv, StepSession, StepChannel, Enabled, Dispatch, PendingTags;
    var w, e := ws[n], es[n];
    RunInv(cfg, ws, es, n);
    IsDispatch(w, e);
    SlotUsed(cfg, w, c);
    var owner := w.channels[c].pendingQueue[0].owner;
    if owner.Some? { DispatchSession(cfg, w, c, owner.value); }
  }

  lemma IsDispatch(w: World, e: Event)
    requires Enabled(w, e) && e.ParseRuns? && w.channels[e.c].state.Ready? && w.channels[e.c].redisIn != []
    ensures StepChannel(w, e) == Dispatch(w, e.c)
  {
    hide Dispatch;
  }

  lemma SlotUsed(cfg: Config, w: World, c: nat)
    requires Inv(cfg, w) && c < |w.channels| && w.channels[c].state.Ready? && w.channels[c].redisIn != []
    ensures |Dispatch(w, c).channels| == |w.channels| && w.channels[c].pendingQueue != []
    ensures var ch, ch' := w.channels[c], Dispatch(w, c).channels[c];
            && ch'.redisIn == ch.redisIn[1..] && ch'.queuedCommands == ch.queuedCommands - 1
            && PendingTags(ch.pendingQueue) == [ch.redisIn[0]] + PendingTags(ch'.pendingQueue) && ch'.writeQueue == ch.writeQueue
    ensures var owner := w.channels[c].pendingQueue[0].owner;
            owner.Some? ==> owner.value in w.sessions && w.channels[c].redisIn[0] == Tag(w.sessions[owner.value].inc, |w.sessions[owner.value].queued|)
  {
    hide SessionInv, FateInv, Book, Coupled, FailConnection, ControlInv, ChannelAwake, HistoryInv, OnBackendReply;
    DispatchTarget(cfg, w, c);
    LocalChannel(cfg, w, c);
    AnsweredTags(w.channels[c]);
  }

  lemma AnsweredTags(ch: Channel)
    requires QueueInv(ch) && ch.state.Ready? && ch.redisIn != [] && ch.pendingQueue != []
    ensures PendingTags(ch.pendingQueue) == [ch.redisIn[0]] + PendingTags(Answered(ch).pendingQueue)
  {
    hide PendingCount, WriteCount;
    var p, rest := ch.pendingQueue[0], ch.pendingQueue[1..];
    assert p.tags == [p.tags[0]] + p.tags[1..];
    assert PendingTags(ch.pendingQueue)[0] == ch.redisIn[0];
    if p.remaining != 1 {
      var q := [p.(remaining := p.remaining - 1, tags := p.tags[1..])] + rest;
      assert q[1..] == rest;
    }
  }

  // ----- batches -----

  /** Channel `c` is ready, no ready channel carries less, and none before it as little. */
  predicate LeastLoadedIs(chs: seq<Channel>, c: nat) {
    && c < |chs| && chs[c].state.Ready?
    && forall d :: 0 <= d < |chs| && chs[d].state.Ready? ==>
         chs[c].queuedCommands <= chs[d].queuedCommands && (d < c ==> chs[c].queuedCommands < chs[d].queuedCommands)
  }

  /** The batch stands last in channel `c`, and no other channel has changed. */
  predicate Handed(w: World, w': World, c: nat, batch: RequestBatch) {
    && c < |w.channels| == |w'.channels|
    && w'.channels[c].writeQueue == w.channels[c].writeQueue + [batch]
    && w'.channels[c].queuedCommands == w.channels[c].queuedCommands + batch.count
    && w'.channels[c].pendingQueue == w.channels[c].pendingQueue
    && forall d :: 0 <= d < |w.channels| && d != c ==> w'.channels[d] == w.channels[d]
  }

  /**
   The batch of a reader's turn, made of exactly the accepted requests it takes, goes whole to one channel: the
   one its session already waits on, or else the first of the least loaded.
   */
  lemma BatchGoesToLeastLoaded(cfg: Config, ws: seq<World>, es: seq<Event>, n: nat, a: Addr, k: nat)
    requires cfg.Valid() && Run(cfg, ws, es) && n < |es| && es[n] == ReaderRuns(a) && a in ws[n].sessions
    requires ws[n].sessions[a].reader.ReaderTop? && ws[n].sessions[a].state.Open?
    requires Leading(Buffered(cfg, ws[n].sessions[a]), cfg.pipeline, k) && k > 0 && Served(ws[n], ws[n].sessions[a])
    ensures a in ws[n + 1].sessions && ws[n + 1].sessions[a].currentBackend.Some?
    ensures var w, w', s, c := ws[n], ws[n + 1], ws[n].sessions[a], ws[n + 1].sessions[a].currentBackend.value;
            && Handed(w, w', c, RequestBatch(a, k, Range(s.inc, |s.requests|, k), Buffered(cfg, s)[..k]))
            && (if s.pendingReplies > 0 then s.currentBackend == Some(c) && w.channels[c].state.Ready?
                else LeastLoadedIs(w.channels, c))
  {
    hide Inv, StepChannel, StepSession, ReaderTurn, Classify, Leading, Select, Handed;
    var w, e := ws[n], es[n];
    IsTurn(cfg, w, e);
    Theorems.RefusedOnlyWithoutBackends(cfg, ws, es, n, a);
    Theorems.CountersMatchQueues(cfg, ws, es, n, 0, a) by { SomeChannel(cfg, ws, es, n); }
    TurnSubmits(cfg, w, a, k);
    SelectedIs(w.channels, w.sessions[a].currentBackend);
  }

  lemma SelectedIs(chs: seq<Channel>, current: Option<nat>)
    requires Select(chs, current).Some?
    ensures var c := Select(chs, current).value;
            if current.Some? then current == Some(c) && c < |chs| && chs[c].state.Ready? else LeastLoadedIs(chs, c)
  {
    LeastLoadedReady(chs, |chs|);
  }

  lemma TurnSubmits(cfg: Config, w: World, a: Addr, k: nat)
    requires a in w.sessions && w.sessions[a].reader.ReaderTop? && w.sessions[a].state.Open?
    requires Leading(Buffered(cfg, w.sessions[a]), cfg.pipeline, k) && k > 0
    requires Select(w.channels, w.sessions[a].currentBackend).Some?
    ensures var w', s, c := ReaderTurn(cfg, w, a), w.sessions[a], Select(w.channels, w.sessions[a].currentBackend).value;
            && a in w'.sessions && w'.sessions[a].currentBackend == Some(c)
            && Handed(w, w', c, RequestBatch(a, k, Range(s.inc, |s.requests|, k), Buffered(cfg, s)[..k]))
  {
    hide Scan, FrameBytes, Select, Classify, AfterScan;
    var s := w.sessions[a];
    var (rs, stop) := Scan(cfg, s.clientIn, cfg.pipeline);
    ScanSound(cfg, s.clientIn, cfg.pipeline);
    ScanReads(cfg, s.clientIn, cfg.pipeline);
    LeadingOnce(Buffered(cfg, s), cfg.pipeline, k, |rs|);
    StaysPinned(Take(s, rs, Select(w.channels, s.currentBackend).value), stop);
  }

  lemma StaysPinned(s: Session, stop: Stop)
    requires stop.Refused? ==> |stop.frame| <= |s.clientIn|
    ensures AfterScan(s, stop).currentBackend == s.currentBackend
  {
  }
}
