/** The invariant of the proxy, and its preservation by the operations that cross objects. */
module ProxyInv {
  import opened Resp
  import opened Signals
  import opened Framing
  import opened Channels
  import opened Sessions
  import opened Proxy

  /** The commands of session `a` that belong in channel `c`; the sessions in `x` are to have none. */
  function Share(w: World, x: set<Addr>, c: nat, a: Addr): seq<Tag> {
    if a in w.sessions && a !in x && w.sessions[a].currentBackend == Some(c)
    then Range(w.sessions[a].inc, |w.sessions[a].queued|, w.sessions[a].pendingReplies)
    else []
  }

  /**
   The coupling of counters and queues: what each channel holds for an address is exactly the
   outstanding part of the session living there, in request order, and nothing anywhere else.
   */
  ghost predicate Coupled(w: World, x: set<Addr>) {
    && (forall c, a: Addr :: 0 <= c < |w.channels| ==> Owned(w.channels[c], a) == Share(w, x, c, a))
    && (forall a :: a in w.sessions && w.sessions[a].currentBackend.Some? ==> w.sessions[a].currentBackend.value < |w.channels|)
  }

  predicate Waits(s: Session, t: Tag) {
    t.inc == s.inc && |s.queued| <= t.index < |s.queued| + s.pendingReplies
  }

  /** Only commands of requests that have been accepted have a fate. */
  ghost predicate FateKnown(w: World) {
    && (forall t :: t in w.fate ==> t.inc < w.nextInc)
    && (forall t, a :: t in w.fate && a in w.sessions && t.inc == w.sessions[a].inc ==>
          t.index < |w.sessions[a].requests| && w.sessions[a].requests[t.index].Accept?)
  }

  /** An outstanding command is one that a living session waits for. */
  ghost predicate FateWaits(w: World, x: set<Addr>) {
    forall t :: t in w.fate && w.fate[t].Outstanding? ==>
      exists a :: a in w.sessions && a !in x && Waits(w.sessions[a], t)
  }

  ghost predicate FateAccepted(w: World, x: set<Addr>) {
    forall a, i :: a in w.sessions && 0 <= i < |w.sessions[a].requests| && w.sessions[a].requests[i].Accept? ==>
      AcceptedFate(w, x, a, i)
  }

  /** A command whose slot has no owner any more was discarded. */
  ghost predicate FateOrphans(w: World) {
    forall c, t :: 0 <= c < |w.channels| && Orphan(w.channels[c], t) ==> t in w.fate && w.fate[t].Discarded?
  }

  ghost predicate FateInv(w: World, x: set<Addr>) {
    FateKnown(w) && FateWaits(w, x) && FateAccepted(w, x) && FateOrphans(w)
  }

  /** The fate of request `i` of the session at `a`, which was accepted. */
  predicate AcceptedFate(w: World, x: set<Addr>, a: Addr, i: nat)
    requires a in w.sessions
  {
    var s := w.sessions[a];
    var t := Tag(s.inc, i);
    && t in w.fate
    && (i < |s.queued| <==> w.fate[t].Delivered?)
    && (i >= |s.queued| && !s.state.Aborted? && a !in x ==> w.fate[t].Outstanding?)
  }

  predicate Distinct(q: seq<Addr>) { forall i, j :: 0 <= i < j < |q| ==> q[i] != q[j] }

  ghost predicate Book(w: World) {
    && (forall a :: a in w.sessions ==> w.sessions[a].inc < w.nextInc)
    && (forall a, b :: a in w.sessions && b in w.sessions && a != b ==> w.sessions[a].inc != w.sessions[b].inc)
    && Distinct(w.finished)
    && (forall a :: a in w.finished <==> a in w.sessions && w.sessions[a].activeLoops == 0)
  }

  ghost predicate Local(cfg: Config, w: World) {
    && (forall c :: 0 <= c < |w.channels| ==> ChannelInv(w.channels[c]))
    && (forall a :: a in w.sessions ==> SessionInv(cfg, w.sessions[a]))
  }

  /** `x`: sessions whose commands have just been lost and which have not been told yet. */
  ghost predicate InvExcept(cfg: Config, w: World, x: set<Addr>) {
    Local(cfg, w) && Coupled(w, x) && FateInv(w, x) && Book(w)
  }

  ghost predicate Inv(cfg: Config, w: World) { InvExcept(cfg, w, {}) }

  lemma NewChannelInv()
    ensures ChannelInv(NewChannel)
    ensures forall a: Addr :: Owned(NewChannel, a) == []
    ensures forall t :: !Orphan(NewChannel, t)
  {
    NewChannelQueues();
    assert Commands([]) == [];
    hide QueueInv, Owned, Orphan;
  }

  lemma NewChannelQueues()
    ensures QueueInv(NewChannel) && forall a: Addr :: Owned(NewChannel, a) == []
    ensures forall t :: !Orphan(NewChannel, t)
  {
  }

  lemma InitInv(cfg: Config, w: World)
    requires Init(w)
    ensures Inv(cfg, w)
  {
    hide SessionInv, ChannelInv, Owned, Orphan;
    NewChannelInv();
  }

  // ----- one object changes, the others do not notice -----

  /** A session step that neither submits, nor answers a command, nor aborts, nor ends a loop. */
  predicate Quiet(s: Session, s': Session) {
    && s'.inc == s.inc && s'.currentBackend == s.currentBackend && s'.pendingReplies == s.pendingReplies
    && s'.state.Aborted? == s.state.Aborted? && s'.activeLoops == s.activeLoops
    && s.requests <= s'.requests && |s.queued| <= |s'.queued| <= |s'.requests|
    && (s.pendingReplies > 0 ==> |s'.queued| == |s.queued|)
    && (forall i :: |s.requests| <= i < |s'.requests| ==> !s'.requests[i].Accept?)
    && (forall i :: |s.queued| <= i < |s'.queued| ==> !s'.requests[i].Accept?)
  }

  lemma QuietFate(w: World, x: set<Addr>, a: Addr, s': Session)
    requires FateInv(w, x) && a in w.sessions && Quiet(w.sessions[a], s')
    ensures FateInv(SetSession(w, a, s'), x)
  {
    var w' := SetSession(w, a, s');
    forall t | t in w'.fate && w'.fate[t].Outstanding?
      ensures exists b :: b in w'.sessions && b !in x && Waits(w'.sessions[b], t)
    {
      var b :| b in w.sessions && b !in x && Waits(w.sessions[b], t);
      assert Waits(w'.sessions[b], t);
    }
    forall b, i | b in w'.sessions && 0 <= i < |w'.sessions[b].requests| && w'.sessions[b].requests[i].Accept?
      ensures AcceptedFate(w', x, b, i)
    {
      assert i < |w.sessions[b].requests| && w.sessions[b].requests[i].Accept?;
      assert AcceptedFate(w, x, b, i);
    }
  }

  lemma QuietKeeps(cfg: Config, w: World, x: set<Addr>, a: Addr, s': Session)
    requires InvExcept(cfg, w, x) && a in w.sessions && Quiet(w.sessions[a], s') && SessionInv(cfg, s')
    ensures InvExcept(cfg, SetSession(w, a, s'), x)
  {
    hide SessionInv, ChannelInv, FateInv, Owned, Book;
    var w' := SetSession(w, a, s');
    QuietFate(w, x, a, s');
    SetBook(w, w', a);
    forall c, b: Addr | 0 <= c < |w'.channels|
      ensures Owned(w'.channels[c], b) == Share(w', x, c, b)
    {
      assert Share(w', x, c, b) == Share(w, x, c, b);
    }
  }

  /** A channel step that keeps every owner's commands and orphans nobody. */
  lemma ChannelKeeps(cfg: Config, w: World, x: set<Addr>, c: nat, ch': Channel)
    requires InvExcept(cfg, w, x) && c < |w.channels| && ChannelInv(ch')
    requires forall a: Addr :: Owned(ch', a) == Owned(w.channels[c], a)
    requires forall t :: Orphan(ch', t) ==> Orphan(w.channels[c], t)
    ensures InvExcept(cfg, SetChannel(w, c, ch'), x)
  {
    hide SessionInv, ChannelInv, Owned, Orphan;
    var w' := SetChannel(w, c, ch');
    forall d, b: Addr | 0 <= d < |w'.channels|
      ensures Owned(w'.channels[d], b) == Share(w', x, d, b)
    {
      assert Share(w', x, d, b) == Share(w, x, d, b);
      assert Owned(w'.channels[d], b) == Owned(w.channels[d], b);
    }
    forall b, i | b in w'.sessions && 0 <= i < |w'.sessions[b].requests| && w'.sessions[b].requests[i].Accept?
      ensures AcceptedFate(w', x, b, i)
    {
      assert AcceptedFate(w, x, b, i);
    }
    forall d, t | 0 <= d < |w'.channels| && Orphan(w'.channels[d], t)
      ensures t in w'.fate && w'.fate[t].Discarded?
    {
      assert Orphan(w.channels[d], t);
    }
  }

  // ----- submit -----

  lemma SubmitCoupled(w: World, a: Addr, c: nat, rs: seq<Request>)
    requires Coupled(w, {}) && a in w.sessions && c < |w.channels| && |FrameBytes(rs)| <= |w.sessions[a].clientIn|
    requires OrderInv(w.sessions[a]) && w.sessions[a].state.Open? && w.sessions[a].reader.ReaderTop?
    requires w.sessions[a].currentBackend.None? || w.sessions[a].currentBackend == Some(c)
    requires rs != [] && ChannelInv(w.channels[c]) && w.channels[c].state.Ready?
    ensures Coupled(SubmitBatch(w, a, c, rs), {})
  {
    hide FrameBytes, ChannelInv, Owned;
    var w' := SubmitBatch(w, a, c, rs);
    var s, s' := w.sessions[a], w'.sessions[a];
    var tags := Range(s.inc, |s.requests|, |rs|);
    assert |s.requests| == |s.queued| + s.pendingReplies;
    forall d, b: Addr | 0 <= d < |w'.channels|
      ensures Owned(w'.channels[d], b) == Share(w', {}, d, b)
    {
      assert Owned(w.channels[d], b) == Share(w, {}, d, b);
      if d == c {
        SubmitKeeps(w.channels[c], a, tags, rs, b);
        if b == a {
          assert Share(w', {}, c, a) == Range(s.inc, |s.queued|, s.pendingReplies) + tags;
        }
      } else if b == a {
        assert Share(w, {}, d, a) == [];
      }
    }
  }

  lemma SubmitAccepted(w: World, a: Addr, c: nat, rs: seq<Request>, b: Addr, i: nat)
    requires FateInv(w, {}) && Book(w) && a in w.sessions && c < |w.channels|
    requires |FrameBytes(rs)| <= |w.sessions[a].clientIn| && CountInv(w.sessions[a])
    requires var w' := SubmitBatch(w, a, c, rs);
             b in w'.sessions && i < |w'.sessions[b].requests| && w'.sessions[b].requests[i].Accept?
    ensures AcceptedFate(SubmitBatch(w, a, c, rs), {}, b, i)
  {
    hide FrameBytes;
    var s := w.sessions[a];
    var tags := Range(s.inc, |s.requests|, |rs|);
    if b == a && i >= |s.requests| {
      assert tags[i - |s.requests|] == Tag(s.inc, i);
    } else {
      assert AcceptedFate(w, {}, b, i);
      assert Tag(w.sessions[b].inc, i) !in TagSet(tags);
    }
  }

  lemma SubmitOutstanding(w: World, a: Addr, c: nat, rs: seq<Request>, t: Tag) returns (b: Addr)
    requires FateInv(w, {}) && a in w.sessions && c < |w.channels|
    requires |FrameBytes(rs)| <= |w.sessions[a].clientIn|
    requires var s := w.sessions[a]; 0 <= s.pendingReplies && |s.requests| == |s.queued| + s.pendingReplies
    requires var w' := SubmitBatch(w, a, c, rs); t in w'.fate && w'.fate[t].Outstanding?
    ensures var w' := SubmitBatch(w, a, c, rs); b in w'.sessions && Waits(w'.sessions[b], t)
  {
    hide FrameBytes, AcceptedFate, Orphan;
    var s := w.sessions[a];
    if t in TagSet(Range(s.inc, |s.requests|, |rs|)) {
      b := a;
    } else {
      b :| b in w.sessions && b !in {} && Waits(w.sessions[b], t);
    }
  }

  lemma SubmitOrphan(w: World, a: Addr, c: nat, rs: seq<Request>, d: nat, t: Tag)
    requires FateInv(w, {}) && a in w.sessions && c < |w.channels|
    requires |FrameBytes(rs)| <= |w.sessions[a].clientIn|
    requires d < |w.channels| && Orphan(SubmitBatch(w, a, c, rs).channels[d], t)
    ensures var w' := SubmitBatch(w, a, c, rs); t in w'.fate && w'.fate[t].Discarded?
  {
    hide FrameBytes, AcceptedFate;
    assert Orphan(w.channels[d], t);
  }

  lemma SubmitKnown(w: World, a: Addr, c: nat, rs: seq<Request>)
    requires FateInv(w, {}) && Book(w) && a in w.sessions && c < |w.channels|
    requires |FrameBytes(rs)| <= |w.sessions[a].clientIn| && forall i :: 0 <= i < |rs| ==> rs[i].Accept?
    ensures FateKnown(SubmitBatch(w, a, c, rs))
  {
    hide FrameBytes, FateWaits, FateAccepted, FateOrphans, Channels.Submit;
  }

  lemma SubmitFate(w: World, a: Addr, c: nat, rs: seq<Request>)
    requires FateInv(w, {}) && Book(w) && a in w.sessions && c < |w.channels|
    requires |FrameBytes(rs)| <= |w.sessions[a].clientIn| && forall i :: 0 <= i < |rs| ==> rs[i].Accept?
    requires OrderInv(w.sessions[a]) && w.sessions[a].state.Open? && w.sessions[a].reader.ReaderTop?
    ensures FateInv(SubmitBatch(w, a, c, rs), {})
  {
    hide FrameBytes, AcceptedFate, Orphan, FateKnown;
    var w' := SubmitBatch(w, a, c, rs);
    var s := w.sessions[a];
    assert |s.requests| == |s.queued| + s.pendingReplies;
    SubmitKnown(w, a, c, rs);
    forall t | t in w'.fate && w'.fate[t].Outstanding?
      ensures exists b :: b in w'.sessions && b !in {} && Waits(w'.sessions[b], t)
    {
      var b := SubmitOutstanding(w, a, c, rs, t);
    }
    forall b, i | b in w'.sessions && 0 <= i < |w'.sessions[b].requests| && w'.sessions[b].requests[i].Accept?
      ensures AcceptedFate(w', {}, b, i)
    {
      SubmitAccepted(w, a, c, rs, b, i);
    }
    forall d, t | 0 <= d < |w'.channels| && Orphan(w'.channels[d], t)
      ensures t in w'.fate && w'.fate[t].Discarded?
    {
      SubmitOrphan(w, a, c, rs, d, t);
    }
  }

  lemma SetLocal(cfg: Config, w: World, w': World, a: Addr, c: nat)
    requires Local(cfg, w) && a in w.sessions && c < |w.channels|
    requires |w'.channels| == |w.channels| && ChannelInv(w'.channels[c]) && w'.channels == w.channels[c := w'.channels[c]]
    requires a in w'.sessions && SessionInv(cfg, w'.sessions[a]) && w'.sessions == w.sessions[a := w'.sessions[a]]
    ensures Local(cfg, w')
  {
    hide SessionInv, ChannelInv;
  }

  lemma SetBook(w: World, w': World, a: Addr)
    requires Book(w) && a in w.sessions && w'.finished == w.finished && w'.nextInc == w.nextInc
    requires a in w'.sessions && w'.sessions == w.sessions[a := w'.sessions[a]]
    requires w'.sessions[a].inc == w.sessions[a].inc
    requires w'.sessions[a].activeLoops == w.sessions[a].activeLoops
    ensures Book(w')
  {
  }

  lemma SubmitInv(cfg: Config, w: World, a: Addr, c: nat, rs: seq<Request>)
    requires Inv(cfg, w) && a in w.sessions && c < |w.channels|
    requires w.sessions[a].state.Open? && w.sessions[a].reader.ReaderTop?
    requires w.sessions[a].currentBackend.None? || w.sessions[a].currentBackend == Some(c)
    requires w.channels[c].state.Ready? && rs != []
    requires AllJudged(cfg, rs) && (forall i :: 0 <= i < |rs| ==> rs[i].Accept?) && FrameBytes(rs) <= w.sessions[a].clientIn
    ensures Inv(cfg, SubmitBatch(w, a, c, rs))
  {
    hide FrameBytes, ChannelInv, SessionInv, FateInv, Coupled, AllJudged, Book;
    var s := w.sessions[a];
    var w' := SubmitBatch(w, a, c, rs);
    SessionParts(cfg, s);
    SubmitCoupled(w, a, c, rs);
    SubmitFate(w, a, c, rs);
    TakeKeeps(cfg, s, rs, c);
    SubmitKeeps(w.channels[c], a, Range(s.inc, |s.requests|, |rs|), rs, a);
    SetLocal(cfg, w, w', a, c);
    SetBook(w, w', a);
  }

  lemma SessionParts(cfg: Config, s: Session)
    requires SessionInv(cfg, s)
    ensures OrderInv(s) && CountInv(s) && LoopInv(s)
  {
  }

  lemma ChannelParts(ch: Channel)
    requires ChannelInv(ch)
    ensures BatchesInv(ch) && QueueInv(ch)
  {
  }

  // ----- who owns what -----

  /** A queued command belongs to a live session that still waits for it. */
  lemma OwnedWaits(cfg: Config, w: World, x: set<Addr>, c: nat, a: Addr, t: Tag)
    requires Local(cfg, w) && Coupled(w, x) && c < |w.channels| && t in Owned(w.channels[c], a)
    ensures a in w.sessions && a !in x && w.sessions[a].currentBackend == Some(c) && Waits(w.sessions[a], t)
    ensures !w.sessions[a].state.Aborted? && t.index < |w.sessions[a].requests| && w.sessions[a].requests[t.index].Accept?
  {
    hide SessionInv, ChannelInv, Owned;
    assert t in Share(w, x, c, a);
    SessionParts(cfg, w.sessions[a]);
  }

  /** ... and every command a session waits for is queued. */
  lemma WaitsOwned(cfg: Config, w: World, x: set<Addr>, a: Addr, t: Tag)
    requires Local(cfg, w) && Coupled(w, x) && a in w.sessions && a !in x && Waits(w.sessions[a], t)
    ensures w.sessions[a].currentBackend.Some? && w.sessions[a].currentBackend.value < |w.channels|
    ensures t in Owned(w.channels[w.sessions[a].currentBackend.value], a)
  {
    hide SessionInv, ChannelInv, Owned;
    var s := w.sessions[a];
    SessionParts(cfg, s);
    var c := s.currentBackend.value;
    assert Share(w, x, c, a)[t.index - |s.queued|] == t;
  }

  lemma SameTagSameSession(w: World, a: Addr, b: Addr, t: Tag)
    requires Book(w) && a in w.sessions && b in w.sessions && t.inc == w.sessions[a].inc == w.sessions[b].inc
    ensures a == b
  {
  }

  // ----- abort -----

  lemma AbortLocal(cfg: Config, w: World, s: set<Addr>)
    requires Local(cfg, w)
    ensures Local(cfg, Abort(w, s))
  {
    hide SessionInv, ChannelInv;
    var live := Live(w, s);
    var w' := Abort(w, s);
    forall c | 0 <= c < |w'.channels| ensures ChannelInv(w'.channels[c]) {
      DetachKeeps(w.channels[c], live, 0);
    }
    forall a | a in w'.sessions ensures SessionInv(cfg, w'.sessions[a]) {
      if a in live { AbortKeeps(cfg, w.sessions[a]); }
    }
  }

  lemma AbortCoupled(cfg: Config, w: World, x: set<Addr>, s: set<Addr>)
    requires Local(cfg, w) && Coupled(w, x)
    ensures Coupled(Abort(w, s), x - s)
  {
    hide SessionInv, ChannelInv, Owned;
    var live := Live(w, s);
    var w' := Abort(w, s);
    forall c, a: Addr | 0 <= c < |w'.channels|
      ensures Owned(w'.channels[c], a) == Share(w', x - s, c, a)
    {
      DetachKeeps(w.channels[c], live, a);
      assert Owned(w.channels[c], a) == Share(w, x, c, a);
      if a in w.sessions { SessionParts(cfg, w.sessions[a]); }
    }
  }

  /** The commands of the aborted sessions are exactly those they were waiting for. */
  lemma AbortedTags(cfg: Config, w: World, x: set<Addr>, s: set<Addr>, t: Tag) returns (a: Addr)
    requires Local(cfg, w) && Coupled(w, x) && t in OwnedBy(w.channels, s)
    ensures a in s && a in w.sessions && Waits(w.sessions[a], t)
    ensures t.index < |w.sessions[a].requests| && w.sessions[a].requests[t.index].Accept?
  {
    hide Owned;
    var c, b :| 0 <= c < |w.channels| && b in s && t in Owned(w.channels[c], b);
    OwnedWaits(cfg, w, x, c, b, t);
    a := b;
  }

  lemma AbortFateKeys(cfg: Config, w: World, x: set<Addr>, s: set<Addr>, t: Tag)
    requires InvExcept(cfg, w, x) && t in Abort(w, s).fate
    ensures t.inc < w.nextInc
    ensures forall a :: a in w.sessions && t.inc == w.sessions[a].inc ==>
              t.index < |w.sessions[a].requests| && w.sessions[a].requests[t.index].Accept?
  {
    hide OwnedBy, SessionInv, ChannelInv, Coupled, FateWaits, FateAccepted, FateOrphans;
    if t in OwnedBy(w.channels, Live(w, s)) {
      var a := AbortedTags(cfg, w, x, Live(w, s), t);
    }
  }

  lemma AbortOutstanding(cfg: Config, w: World, x: set<Addr>, s: set<Addr>, t: Tag) returns (a: Addr)
    requires InvExcept(cfg, w, x)
    requires var w' := Abort(w, s); t in w'.fate && w'.fate[t].Outstanding?
    ensures var w' := Abort(w, s); a in w'.sessions && a !in x && Waits(w'.sessions[a], t)
  {
    hide SessionInv, ChannelInv, Coupled, Owned;
    var live := Live(w, s);
    assert t !in OwnedBy(w.channels, live);
    a :| a in w.sessions && a !in x && Waits(w.sessions[a], t);
    WaitsOwned(cfg, w, x, a, t);
    assert a !in live;
  }

  lemma AbortAccepted(cfg: Config, w: World, x: set<Addr>, s: set<Addr>, a: Addr, i: nat)
    requires InvExcept(cfg, w, x) && a in w.sessions && i < |w.sessions[a].requests| && w.sessions[a].requests[i].Accept?
    ensures AcceptedFate(Abort(w, s), x - s, a, i)
  {
    hide SessionInv, ChannelInv, Coupled, Owned, OwnedBy;
    assert AcceptedFate(w, x, a, i);
    var t := Tag(w.sessions[a].inc, i);
    var live := Live(w, s);
    if t in OwnedBy(w.channels, live) {
      var b := AbortedTags(cfg, w, x, live, t);
      SameTagSameSession(w, a, b, t);
    }
  }

  lemma AbortOrphan(cfg: Config, w: World, x: set<Addr>, s: set<Addr>, c: nat, t: Tag)
    requires InvExcept(cfg, w, x) && c < |w.channels| && Orphan(Abort(w, s).channels[c], t)
    ensures var w' := Abort(w, s); t in w'.fate && w'.fate[t].Discarded?
  {
    hide SessionInv, Coupled, Owned, Orphan, QueueInv, ControlInv, ChannelAwake;
    var live := Live(w, s);
    var ch := w.channels[c];
    ChannelParts(ch);
    if !Orphan(ch, t) {
      var a := DetachOrphans(ch, live, t);
      assert t in OwnedBy(w.channels, live);
    }
  }

  lemma AbortFate(cfg: Config, w: World, x: set<Addr>, s: set<Addr>)
    requires InvExcept(cfg, w, x)
    ensures FateInv(Abort(w, s), x - s)
  {
    hide Local, Coupled, Book, Owned, OwnedBy, Orphan, AcceptedFate;
    var w' := Abort(w, s);
    forall t | t in w'.fate
      ensures t.inc < w'.nextInc
      ensures forall a :: a in w'.sessions && t.inc == w'.sessions[a].inc ==>
                t.index < |w'.sessions[a].requests| && w'.sessions[a].requests[t.index].Accept?
    {
      AbortFateKeys(cfg, w, x, s, t);
    }
    forall t | t in w'.fate && w'.fate[t].Outstanding?
      ensures exists a :: a in w'.sessions && a !in x - s && Waits(w'.sessions[a], t)
    {
      var a := AbortOutstanding(cfg, w, x, s, t);
    }
    forall a, i | a in w'.sessions && 0 <= i < |w'.sessions[a].requests| && w'.sessions[a].requests[i].Accept?
      ensures AcceptedFate(w', x - s, a, i)
    {
      AbortAccepted(cfg, w, x, s, a, i);
    }
    forall c, t | 0 <= c < |w'.channels| && Orphan(w'.channels[c], t)
      ensures t in w'.fate && w'.fate[t].Discarded?
    {
      AbortOrphan(cfg, w, x, s, c, t);
    }
  }

  /** Aborting sessions keeps the invariant and settles those that had lost their connection. */
  lemma AbortInv(cfg: Config, w: World, x: set<Addr>, s: set<Addr>)
    requires InvExcept(cfg, w, x)
    ensures InvExcept(cfg, Abort(w, s), x - s)
  {
    hide Local, Coupled, FateInv;
    AbortLocal(cfg, w, s);
    AbortCoupled(cfg, w, x, s);
    AbortFate(cfg, w, x, s);
  }

  // ----- failConnection -----

  lemma FailuresIrrelevant(cfg: Config, s: Session, n: nat)
    requires SessionInv(cfg, s)
    ensures SessionInv(cfg, s.(failures := n))
  {
    hide Peek, Classify, Judged, FrameBytes;
  }

  lemma LoseLocal(cfg: Config, w: World, c: nat)
    requires Local(cfg, w) && c < |w.channels| && w.channels[c].state.Ready?
    ensures Local(cfg, LoseConnection(w, c))
  {
    hide SessionInv, ChannelInv;
    var w' := LoseConnection(w, c);
    ClearKeeps(w.channels[c], 0);
    forall a | a in w'.sessions ensures SessionInv(cfg, w'.sessions[a]) {
      FailuresIrrelevant(cfg, w.sessions[a], w'.sessions[a].failures);
    }
  }

  lemma LoseCoupled(cfg: Config, w: World, c: nat)
    requires Local(cfg, w) && Coupled(w, {}) && c < |w.channels| && w.channels[c].state.Ready?
    ensures Coupled(LoseConnection(w, c), Owners(w.channels[c]))
  {
    hide SessionInv, ChannelInv, Owned, Owners;
    var w' := LoseConnection(w, c);
    forall d, a: Addr | 0 <= d < |w'.channels|
      ensures Owned(w'.channels[d], a) == Share(w', Owners(w.channels[c]), d, a)
    {
      ClearKeeps(w.channels[c], a);
      ChannelParts(w.channels[c]);
      OwnedIffOwner(w.channels[c], a);
      assert Owned(w.channels[c], a) == Share(w, {}, c, a);
      assert Owned(w.channels[d], a) == Share(w, {}, d, a);
    }
  }

  /** The lost commands were outstanding, and they are all that their owners were waiting for. */
  lemma LostTags(cfg: Config, w: World, c: nat, t: Tag) returns (a: Addr)
    requires Inv(cfg, w) && c < |w.channels| && t in OwnedBy([w.channels[c]], Owners(w.channels[c]))
    ensures a in Owners(w.channels[c]) && a in w.sessions && Waits(w.sessions[a], t)
    ensures t in w.fate && w.fate[t].Outstanding?
  {
    hide SessionInv, ChannelInv, Coupled, Owned, Owners;
    a :| a in Owners(w.channels[c]) && t in Owned(w.channels[c], a);
    OwnedWaits(cfg, w, {}, c, a, t);
    assert AcceptedFate(w, {}, a, t.index);
  }

  lemma LoseOutstanding(cfg: Config, w: World, c: nat, t: Tag) returns (a: Addr)
    requires Inv(cfg, w) && c < |w.channels|
    requires var w' := LoseConnection(w, c); t in w'.fate && w'.fate[t].Outstanding?
    ensures a in w.sessions && a !in Owners(w.channels[c]) && Waits(w.sessions[a], t)
  {
    hide SessionInv, ChannelInv, Coupled, Owned, Owners;
    var ch := w.channels[c];
    assert t !in OwnedBy([ch], Owners(ch));
    a :| a in w.sessions && a !in {} && Waits(w.sessions[a], t);
    WaitsOwned(cfg, w, {}, a, t);
    if a in Owners(ch) {
      OwnerIsHere(cfg, w, c, a);
      OwnedIsLost(ch, a, t);
    }
  }

  lemma OwnedIsLost(ch: Channel, a: Addr, t: Tag)
    requires a in Owners(ch) && t in Owned(ch, a)
    ensures t in OwnedBy([ch], Owners(ch))
  {
    hide Owned, Owners;
    assert [ch][0] == ch;
  }

  /** An owner found in a channel's queues is a live session pinned to that channel. */
  lemma OwnerIsHere(cfg: Config, w: World, c: nat, a: Addr)
    requires Local(cfg, w) && Coupled(w, {}) && c < |w.channels| && a in Owners(w.channels[c])
    ensures a in w.sessions && w.sessions[a].currentBackend == Some(c) && w.sessions[a].pendingReplies > 0
    ensures !w.sessions[a].state.Aborted? && w.sessions[a].activeLoops > 0
  {
    hide SessionInv, ChannelInv, Owned, Owners;
    ChannelParts(w.channels[c]);
    OwnedIffOwner(w.channels[c], a);
    assert Share(w, {}, c, a) != [];
    SessionParts(cfg, w.sessions[a]);
  }

  lemma LoseAccepted(cfg: Config, w: World, c: nat, a: Addr, i: nat)
    requires Inv(cfg, w) && c < |w.channels|
    requires a in w.sessions && i < |w.sessions[a].requests| && w.sessions[a].requests[i].Accept?
    ensures AcceptedFate(LoseConnection(w, c), Owners(w.channels[c]), a, i)
  {
    hide SessionInv, ChannelInv, Coupled, Owned, OwnedBy, Owners;
    assert AcceptedFate(w, {}, a, i);
    var t := Tag(w.sessions[a].inc, i);
    if t in OwnedBy([w.channels[c]], Owners(w.channels[c])) {
      var b := LostTags(cfg, w, c, t);
      SameTagSameSession(w, a, b, t);
    }
  }

  lemma LoseFate(cfg: Config, w: World, c: nat)
    requires Inv(cfg, w) && c < |w.channels| && w.channels[c].state.Ready?
    ensures FateInv(LoseConnection(w, c), Owners(w.channels[c]))
  {
    hide Local, Coupled, Book, Owned, OwnedBy, Orphan, AcceptedFate, Owners;
    var w' := LoseConnection(w, c);
    var lost := OwnedBy([w.channels[c]], Owners(w.channels[c]));
    forall t | t in lost ensures t in w.fate && w.fate[t].Outstanding? {
      var a := LostTags(cfg, w, c, t);
    }
    forall t | t in w'.fate && w'.fate[t].Outstanding?
      ensures exists a :: a in w'.sessions && a !in Owners(w.channels[c]) && Waits(w'.sessions[a], t)
    {
      var a := LoseOutstanding(cfg, w, c, t);
      assert Waits(w'.sessions[a], t);
    }
    forall a, i | a in w'.sessions && 0 <= i < |w'.sessions[a].requests| && w'.sessions[a].requests[i].Accept?
      ensures AcceptedFate(w', Owners(w.channels[c]), a, i)
    {
      LoseAccepted(cfg, w, c, a, i);
    }
    forall d, t | 0 <= d < |w'.channels| && Orphan(w'.channels[d], t)
      ensures t in w'.fate && w'.fate[t].Discarded?
    {
      NoOrphanCleared(w.channels[c], t);
      assert d != c;
    }
  }

  lemma NoOrphanCleared(ch: Channel, t: Tag)
    ensures !Orphan(Clear(ch), t)
  {
  }

  lemma FailInv(cfg: Config, w: World, c: nat)
    requires Inv(cfg, w) && c < |w.channels|
    ensures Inv(cfg, FailConnection(w, c))
    ensures |FailConnection(w, c).channels| == |w.channels| && !FailConnection(w, c).channels[c].state.Ready?
  {
    hide Local, Coupled, FateInv, Owners;
    if w.channels[c].state.Ready? {
      LoseLocal(cfg, w, c);
      LoseCoupled(cfg, w, c);
      LoseFate(cfg, w, c);
      var owners := Owners(w.channels[c]);
      AbortInv(cfg, LoseConnection(w, c), owners, owners);
      assert owners - owners == {};
    }
  }

  // ----- dispatchReply -----

  /** The reply at hand is the oldest one its receiver waits for. */
  lemma DispatchTarget(cfg: Config, w: World, c: nat)
    requires Local(cfg, w) && Coupled(w, {}) && c < |w.channels| && w.channels[c].state.Ready? && w.channels[c].redisIn != []
    ensures w.channels[c].pendingQueue != []
    ensures var owner := w.channels[c].pendingQueue[0].owner;
            owner.Some? ==>
              && owner.value in w.sessions
              && var s := w.sessions[owner.value];
                 s.pendingReplies > 0 && s.currentBackend == Some(c) && !s.state.Aborted? && s.activeLoops > 0
                 && w.channels[c].redisIn[0] == Tag(s.inc, |s.queued|)
  {
    hide SessionInv, ChannelInv, Owned;
    var ch := w.channels[c];
    ChannelParts(ch);
    PopReplyFront(ch);
    var owner := ch.pendingQueue[0].owner;
    if owner.Some? {
      var a := owner.value;
      AnsweredOwned(ch, a);
      assert Owned(ch, a)[0] == ch.redisIn[0];
      OwnedWaits(cfg, w, {}, c, a, ch.redisIn[0]);
      assert Share(w, {}, c, a)[0] == ch.redisIn[0];
      SessionParts(cfg, w.sessions[a]);
    }
  }

  lemma AnsweredInv(ch: Channel)
    requires ChannelInv(ch) && ch.state.Ready? && ch.redisIn != [] && ch.pendingQueue != []
    ensures ChannelInv(Answered(ch))
  {
    hide QueueInv, PendingTags, WriteCount, PendingCount;
    AnsweredQueue(ch);
  }

  lemma DispatchShare(cfg: Config, w: World, c: nat, d: nat, a: Addr)
    requires Local(cfg, w) && Coupled(w, {}) && c < |w.channels| && w.channels[c].state.Ready? && w.channels[c].redisIn != []
    requires d < |w.channels|
    ensures |Dispatch(w, c).channels| == |w.channels| && Owned(Dispatch(w, c).channels[d], a) == Share(Dispatch(w, c), {}, d, a)
  {
    hide SessionInv, ChannelInv, Owned, FailConnection, Answered;
    DispatchTarget(cfg, w, c);
    var ch := w.channels[c];
    ChannelParts(ch);
    PopReplyFront(ch);
    assert Owned(w.channels[d], a) == Share(w, {}, d, a);
    AnsweredOwned(ch, a);
    if ch.pendingQueue[0].owner == Some(a) {
      var s := w.sessions[a];
      assert Owned(ch, a) == Share(w, {}, c, a);
      assert Share(w, {}, c, a)[1..] == Range(s.inc, |s.queued| + 1, s.pendingReplies - 1);
      assert Owned(ch, a)[1..] == Owned(Answered(ch), a);
    }
  }

  lemma DispatchCoupled(cfg: Config, w: World, c: nat)
    requires Local(cfg, w) && Coupled(w, {}) && c < |w.channels| && w.channels[c].state.Ready? && w.channels[c].redisIn != []
    ensures Coupled(Dispatch(w, c), {})
  {
    hide SessionInv, ChannelInv, Owned, FailConnection, Answered, Share;
    DispatchTarget(cfg, w, c);
    var w' := Dispatch(w, c);
    forall d, a: Addr | 0 <= d < |w'.channels|
      ensures Owned(w'.channels[d], a) == Share(w', {}, d, a)
    {
      DispatchShare(cfg, w, c, d, a);
    }
  }

  /** The oldest awaited reply of session `a` has been delivered. */
  ghost predicate Delivers(w: World, w': World, a: Addr) {
    && a in w.sessions && CountInv(w.sessions[a]) && w.sessions[a].pendingReplies > 0
    && |w.sessions[a].queued| < |w.sessions[a].requests| && w.sessions[a].requests[|w.sessions[a].queued|].Accept?
    && !w.sessions[a].state.Aborted?
    && w'.nextInc == w.nextInc && w'.sessions.Keys == w.sessions.Keys
    && w'.fate == w.fate[Tag(w.sessions[a].inc, |w.sessions[a].queued|) := Delivered]
    && (forall b :: b in w.sessions && b != a ==> w'.sessions[b] == w.sessions[b])
    && var s, s' := w.sessions[a], w'.sessions[a];
       s'.inc == s.inc && s'.requests == s.requests && s'.state == s.state
       && |s'.queued| == |s.queued| + 1 && s'.pendingReplies == s.pendingReplies - 1
  }

  lemma DeliverAccepted(w: World, w': World, a: Addr, b: Addr, i: nat)
    requires FateInv(w, {}) && Book(w) && Delivers(w, w', a)
    requires b in w'.sessions && i < |w'.sessions[b].requests| && w'.sessions[b].requests[i].Accept?
    ensures AcceptedFate(w', {}, b, i)
  {
    hide Orphan;
    assert AcceptedFate(w, {}, b, i);
    if b != a { assert w.sessions[b].inc != w.sessions[a].inc; }
  }

  lemma DeliverKnown(w: World, w': World, a: Addr)
    requires FateInv(w, {}) && Delivers(w, w', a)
    ensures FateKnown(w')
  {
    hide FateWaits, FateOrphans;
    assert AcceptedFate(w, {}, a, |w.sessions[a].queued|);
  }

  lemma DeliverWaits(w: World, w': World, a: Addr)
    requires FateWaits(w, {}) && Delivers(w, w', a)
    ensures FateWaits(w', {})
  {
    forall u | u in w'.fate && w'.fate[u].Outstanding?
      ensures exists b :: b in w'.sessions && b !in {} && Waits(w'.sessions[b], u)
    {
      var b :| b in w.sessions && b !in {} && Waits(w.sessions[b], u);
      assert Waits(w'.sessions[b], u);
    }
  }

  lemma DeliverOrphans(w: World, w': World, a: Addr)
    requires FateInv(w, {}) && Delivers(w, w', a)
    requires |w'.channels| == |w.channels|
    requires forall d, u :: 0 <= d < |w'.channels| && Orphan(w'.channels[d], u) ==> Orphan(w.channels[d], u)
    ensures FateOrphans(w')
  {
    hide Orphan, FateKnown, FateWaits;
    assert AcceptedFate(w, {}, a, |w.sessions[a].queued|);
  }

  /** Delivering settles that command and no other. */
  lemma DeliverFate(w: World, w': World, a: Addr)
    requires FateInv(w, {}) && Book(w) && Delivers(w, w', a)
    requires |w'.channels| == |w.channels|
    requires forall d, u :: 0 <= d < |w'.channels| && Orphan(w'.channels[d], u) ==> Orphan(w.channels[d], u)
    ensures FateInv(w', {})
  {
    hide Orphan, AcceptedFate, Book, Delivers, FateKnown, FateWaits, FateOrphans;
    DeliverKnown(w, w', a);
    DeliverWaits(w, w', a);
    DeliverOrphans(w, w', a);
    forall b, i | b in w'.sessions && 0 <= i < |w'.sessions[b].requests| && w'.sessions[b].requests[i].Accept?
      ensures AcceptedFate(w', {}, b, i)
    {
      DeliverAccepted(w, w', a, b, i);
    }
  }

  lemma DispatchFate(cfg: Config, w: World, c: nat)
    requires Inv(cfg, w) && c < |w.channels| && w.channels[c].state.Ready? && w.channels[c].redisIn != []
    requires w.channels[c].pendingQueue != [] && w.channels[c].pendingQueue[0].owner.Some?
    ensures FateInv(Dispatch(w, c), {})
  {
    hide SessionInv, ChannelInv, Coupled, Owned, Orphan, FateInv, Book;
    DispatchTarget(cfg, w, c);
    var a := w.channels[c].pendingQueue[0].owner.value;
    SessionParts(cfg, w.sessions[a]);
    var w' := Dispatch(w, c);
    forall d, u | 0 <= d < |w'.channels| && Orphan(w'.channels[d], u)
      ensures Orphan(w.channels[d], u)
    {
      if d == c { ChannelParts(w.channels[c]); AnsweredOrphans(w.channels[c], u); }
    }
    DeliverFate(w, w', a);
  }

  lemma DispatchInv(cfg: Config, w: World, c: nat)
    requires Inv(cfg, w) && c < |w.channels| && w.channels[c].state.Ready? && w.channels[c].redisIn != []
    ensures Inv(cfg, Dispatch(w, c))
  {
    hide SessionInv, ChannelInv, Coupled, Owned, Orphan, FateInv, Book;
    DispatchTarget(cfg, w, c);
    var ch := w.channels[c];
    AnsweredInv(ch);
    if ch.pendingQueue[0].owner.Some? {
      var a := ch.pendingQueue[0].owner.value;
      OnBackendReplyKeeps(cfg, w.sessions[a]);
      SetLocal(cfg, w, Dispatch(w, c), a, c);
      SetBook(w, Dispatch(w, c), a);
      DispatchCoupled(cfg, w, c);
      DispatchFate(cfg, w, c);
    } else {
      ChannelParts(ch);
      PopReplyFront(ch);
      forall a: Addr ensures Owned(Answered(ch), a) == Owned(ch, a) { AnsweredOwned(ch, a); }
      forall t | Orphan(Answered(ch), t) ensures Orphan(ch, t) { AnsweredOrphans(ch, t); }
      ChannelKeeps(cfg, w, {}, c, Answered(ch));
    }
  }

  // ----- a session's end, arrival and removal -----

  /** When both loops have exited, no queue mentions the session: `detachOwner` finds nothing. */
  lemma {:induction false} EraseNothing(q: seq<RequestBatch>, a: Addr)
    requires forall i :: 0 <= i < |q| ==> q[i].owner != a
    ensures Erase(q, {a}) == q
  {
    if q != [] { EraseNothing(q[1..], a); }
  }

  lemma DetachNothing(ch: Channel, a: Addr)
    requires BatchesInv(ch) && Owned(ch, a) == []
    ensures Detach(ch, {a}) == ch
  {
    OwnedPendingEmpty(ch.pendingQueue, a);
    OwnedWritesEmpty(ch.writeQueue, a);
    EraseNothing(ch.writeQueue, a);
    assert DisownAll(ch.pendingQueue, {a}) == ch.pendingQueue;
  }

  lemma FinishDetachesNothing(cfg: Config, w: World, a: Addr)
    requires Local(cfg, w) && Coupled(w, {}) && a in w.sessions && w.sessions[a].pendingReplies == 0
    ensures DetachAll(w.channels, {a}) == w.channels && OwnedBy(w.channels, {a}) == {}
  {
    hide SessionInv, ChannelInv, Owned, Detach;
    SessionParts(cfg, w.sessions[a]);
    forall c | 0 <= c < |w.channels| ensures Detach(w.channels[c], {a}) == w.channels[c] && Owned(w.channels[c], a) == [] {
      assert Share(w, {}, c, a) == [];
      ChannelParts(w.channels[c]);
      DetachNothing(w.channels[c], a);
    }
  }
}
