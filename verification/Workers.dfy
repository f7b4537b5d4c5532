/**
 The hand-off of connections from the acceptor thread to a worker, and the worker's removal of
 finished sessions: `dispatchFd`, `reapFds`, `reapSessions` and the poll loop, step by step.
 A lock-protected block is one step; the notifier is level-triggered.
 */
module Workers {
  import opened Channels

  /** Where the worker's polling coroutine is. */
  datatype LoopPc = CheckFlag | TakeFds | StartSessions | RemoveSessions | Polling | DrainNotifier

  datatype Worker = Worker(
    pendingFds: seq<int>,
    hasPendingFds: bool,
    notified: bool,
    dispatching: set<nat>,       // numbers of the dispatches that have released the lock and not yet notified
    pc: LoopPc,
    fds: seq<int>,               // taken from the queue, not yet started
    sessions: map<Addr, nat>,    // the number of the session living at each address
    finished: seq<Addr>,
    // history
    dispatched: seq<int>,
    started: seq<int>,
    erased: seq<nat>
  )

  const NewWorker := Worker([], false, false, {}, CheckFlag, [], map[], [], [], [], [])

  datatype Action =
    | Enqueue(fd: int)           // dispatchFd, the locked part
    | Notify(k: nat)             // dispatchFd of the `k`-th fd, after the lock
    | LoopRuns(spot: Addr)      // the polling coroutine; `spot` is where the allocator puts a new session
    | PollReturns(ready: bool)
    | SessionFinishes(a: Addr)   // on the worker thread, while the polling coroutine is suspended

  predicate Enabled(w: Worker, e: Action) {
    match e
    case Enqueue(_) => true
    case Notify(k) => k in w.dispatching
    case LoopRuns(spot) => !w.pc.Polling? && spot !in w.sessions
    case PollReturns(ready) => w.pc.Polling? && (ready ==> w.notified)
    case SessionFinishes(a) => w.pc.Polling? && a in w.sessions && a !in w.finished
  }

  function Numbers(w: Worker, q: seq<Addr>): seq<nat>
    requires forall i :: 0 <= i < |q| ==> q[i] in w.sessions
  {
    seq(|q|, i requires 0 <= i < |q| => w.sessions[q[i]])
  }

  /** `reapSessions`. */
  function Removed(sessions: map<Addr, nat>, finished: seq<Addr>): map<Addr, nat> {
    sessions - (set i | 0 <= i < |finished| :: finished[i])
  }

  function LoopStep(w: Worker, spot: Addr): Worker {
    match w.pc
    case CheckFlag => w.(pc := if w.hasPendingFds then TakeFds else RemoveSessions)
    case TakeFds => w.(fds := w.pendingFds, pendingFds := [], hasPendingFds := false, pc := StartSessions)
    case StartSessions =>
      if w.fds == [] then w.(pc := RemoveSessions)
      else w.(fds := w.fds[1..], sessions := w.sessions[spot := |w.started|], started := w.started + [w.fds[0]])
    case RemoveSessions =>
      w.(sessions := Removed(w.sessions, w.finished),
         erased := w.erased + (if forall i :: 0 <= i < |w.finished| ==> w.finished[i] in w.sessions
                               then Numbers(w, w.finished) else []),
         finished := [], pc := Polling)
    case DrainNotifier => w.(notified := false, pc := CheckFlag)
    case Polling => w
  }

  function Step(w: Worker, e: Action): Worker
    requires Enabled(w, e)
  {
    match e
    case Enqueue(fd) =>
      w.(pendingFds := w.pendingFds + [fd], hasPendingFds := true, dispatching := w.dispatching + {|w.dispatched|},
         dispatched := w.dispatched + [fd])
    case Notify(k) => w.(notified := true, dispatching := w.dispatching - {k})
    case LoopRuns(spot) => LoopStep(w, spot)
    case PollReturns(ready) => w.(pc := if ready then DrainNotifier else CheckFlag)
    case SessionFinishes(a) => w.(finished := w.finished + [a], notified := true)
  }

  // ----- invariant -----

  predicate HandOff(w: Worker) {
    && (w.hasPendingFds <==> w.pendingFds != [])
    && (w.fds != [] ==> w.pc.StartSessions?)
    && w.started + w.fds + w.pendingFds == w.dispatched
  }

  /** The dispatch number of the `j`-th fd in the queue. */
  function DispatchOf(w: Worker, j: nat): int { |w.dispatched| - |w.pendingFds| + j }

  /** Every fd in the queue will still be announced by its own dispatcher. */
  predicate Unannounced(w: Worker) { forall j :: 0 <= j < |w.pendingFds| ==> DispatchOf(w, j) in w.dispatching }

  /** Once the flag has been read or the queue taken, a queued fd that was announced has left the notifier set. */
  predicate Awake(w: Worker) {
    && (w.pc.StartSessions? || w.pc.RemoveSessions? || w.pc.Polling? ==> w.notified || Unannounced(w))
    && (w.pc.Polling? ==> w.notified || w.finished == [])
  }

  predicate DistinctAddrs(q: seq<Addr>) { forall i, j :: 0 <= i < j < |q| ==> q[i] != q[j] }

  predicate DistinctNumbers(q: seq<nat>) { forall i, j :: 0 <= i < j < |q| ==> q[i] != q[j] }

  ghost predicate Alive(w: Worker, k: nat) { exists a :: a in w.sessions && w.sessions[a] == k }

  /** No number is used twice, by the living or the erased. */
  ghost predicate Unique(w: Worker) {
    && (forall a, b :: a in w.sessions && b in w.sessions && a != b ==> w.sessions[a] != w.sessions[b])
    && (forall a :: a in w.sessions ==> w.sessions[a] < |w.started| && w.sessions[a] !in w.erased)
    && DistinctNumbers(w.erased)
    && (forall i :: 0 <= i < |w.erased| ==> w.erased[i] < |w.started|)
  }

  predicate FinishedLive(w: Worker) {
    (forall i :: 0 <= i < |w.finished| ==> w.finished[i] in w.sessions) && DistinctAddrs(w.finished)
  }

  ghost predicate Covered(w: Worker) { forall k: nat :: k < |w.started| ==> k in w.erased || Alive(w, k) }

  ghost predicate Registered(w: Worker) { FinishedLive(w) && Unique(w) && Covered(w) }

  ghost predicate Inv(w: Worker) { HandOff(w) && Awake(w) && Registered(w) }

  lemma HandOffStep(w: Worker, e: Action)
    requires HandOff(w) && Enabled(w, e)
    ensures HandOff(Step(w, e))
  {
    if e.LoopRuns? && w.pc.StartSessions? && w.fds != [] {
      assert w.fds == [w.fds[0]] + w.fds[1..];
      assert w.started + w.fds == (w.started + [w.fds[0]]) + w.fds[1..];
    }
    if e.Enqueue? {
      assert w.started + w.fds + (w.pendingFds + [e.fd]) == (w.started + w.fds + w.pendingFds) + [e.fd];
    }
  }

  lemma AwakeStep(w: Worker, e: Action)
    requires HandOff(w) && Awake(w) && Enabled(w, e)
    ensures Awake(Step(w, e))
  {
    var w' := Step(w, e);
    if !e.Notify? && Unannounced(w) {
      forall j | 0 <= j < |w'.pendingFds| ensures DispatchOf(w', j) in w'.dispatching {
        if j < |w.pendingFds| { assert DispatchOf(w', j) == DispatchOf(w, j); }
      }
    }
  }

  lemma StartCovered(w: Worker, spot: Addr, k: nat)
    requires Covered(w) && spot !in w.sessions && w.pc.StartSessions? && w.fds != [] && k < |w.started| + 1
    ensures var w' := LoopStep(w, spot); k in w'.erased || Alive(w', k)
  {
    var w' := LoopStep(w, spot);
    if k == |w.started| {
      assert w'.sessions[spot] == k;
    } else if k !in w.erased {
      var a :| a in w.sessions && w.sessions[a] == k;
      assert w'.sessions[a] == k;
    }
  }

  lemma StartRegistered(w: Worker, spot: Addr)
    requires Registered(w) && spot !in w.sessions && w.pc.StartSessions? && w.fds != []
    ensures Registered(LoopStep(w, spot))
  {
    hide Alive;
    var w' := LoopStep(w, spot);
    forall k: nat | k < |w'.started| ensures k in w'.erased || Alive(w', k) {
      StartCovered(w, spot, k);
    }
  }

  /** The numbers of the finished sessions are distinct, in use, and not erased before. */
  lemma FinishedNumbers(w: Worker)
    requires FinishedLive(w) && Unique(w)
    ensures DistinctNumbers(Numbers(w, w.finished))
    ensures forall i :: 0 <= i < |w.finished| ==>
              Numbers(w, w.finished)[i] !in w.erased && Numbers(w, w.finished)[i] < |w.started|
    ensures forall a :: a in w.sessions && a !in w.finished ==> w.sessions[a] !in Numbers(w, w.finished)
  {
  }

  lemma RemoveUnique(w: Worker, spot: Addr)
    requires FinishedLive(w) && Unique(w) && w.pc.RemoveSessions?
    ensures Unique(LoopStep(w, spot))
  {
    hide Numbers;
    FinishedNumbers(w);
    var w' := LoopStep(w, spot);
    var gone := Numbers(w, w.finished);
    assert |gone| == |w.finished| by { NumbersLength(w); }
    DistinctConcat(w.erased, gone);
  }

  lemma NumbersLength(w: Worker)
    requires FinishedLive(w)
    ensures |Numbers(w, w.finished)| == |w.finished|
  {
  }

  lemma DistinctConcat(p: seq<nat>, q: seq<nat>)
    requires DistinctNumbers(p) && DistinctNumbers(q) && forall i :: 0 <= i < |q| ==> q[i] !in p
    ensures DistinctNumbers(p + q)
  {
  }

  lemma RemoveCovered(w: Worker, spot: Addr, k: nat)
    requires FinishedLive(w) && Covered(w) && w.pc.RemoveSessions? && k < |w.started|
    ensures var w' := LoopStep(w, spot); k in w'.erased || Alive(w', k)
  {
    var w' := LoopStep(w, spot);
    if k !in w.erased {
      var a :| a in w.sessions && w.sessions[a] == k;
      if a in w.finished {
        var i :| 0 <= i < |w.finished| && w.finished[i] == a;
        assert Numbers(w, w.finished)[i] == k && w'.erased[|w.erased| + i] == k;
      } else {
        assert w'.sessions[a] == k;
      }
    }
  }

  lemma RemoveRegistered(w: Worker, spot: Addr)
    requires Registered(w) && w.pc.RemoveSessions?
    ensures Registered(LoopStep(w, spot))
  {
    hide Alive, Unique;
    var w' := LoopStep(w, spot);
    RemoveUnique(w, spot);
    forall k: nat | k < |w'.started| ensures k in w'.erased || Alive(w', k) {
      RemoveCovered(w, spot, k);
    }
  }

  lemma SameRegister(w: Worker, w': Worker)
    requires w'.sessions == w.sessions && w'.started == w.started && w'.erased == w.erased
    ensures Unique(w) ==> Unique(w')
    ensures Covered(w) ==> Covered(w')
  {
    assert forall k :: Alive(w, k) ==> Alive(w', k);
  }

  lemma OtherRegistered(w: Worker, e: Action)
    requires Registered(w) && Enabled(w, e)
    requires !(e.LoopRuns? && (w.pc.RemoveSessions? || (w.pc.StartSessions? && w.fds != [])))
    ensures Registered(Step(w, e))
  {
    hide Unique, Covered;
    SameRegister(w, Step(w, e));
  }

  lemma StepInv(w: Worker, e: Action)
    requires Inv(w) && Enabled(w, e)
    ensures Inv(Step(w, e))
  {
    hide HandOff, Awake, Registered;
    HandOffStep(w, e);
    AwakeStep(w, e);
    if e.LoopRuns? && w.pc.StartSessions? && w.fds != [] { StartRegistered(w, e.spot); }
    else if e.LoopRuns? && w.pc.RemoveSessions? { RemoveRegistered(w, e.spot); }
    else { OtherRegistered(w, e); }
  }

  ghost predicate Run(ws: seq<Worker>, es: seq<Action>) {
    && |ws| == |es| + 1 && ws[0] == NewWorker
    && forall i :: 0 <= i < |es| ==> Enabled(ws[i], es[i]) && ws[i + 1] == Step(ws[i], es[i])
  }

  lemma {:induction false} RunInv(ws: seq<Worker>, es: seq<Action>, n: nat)
    requires Run(ws, es) && n < |ws|
    ensures Inv(ws[n])
  {
    if n > 0 {
      RunInv(ws, es, n - 1);
      StepInv(ws[n - 1], es[n - 1]);
    }
  }

  // ----- theorems -----

  /**
   For every interleaving of dispatchers, the worker loop and finishing sessions: fds become sessions
   in dispatch order, the `k`-th fd becoming the `k`-th session; each session started is alive or has
   been erased, once; and no two live sessions share an address or a number.
   */
  lemma FdsBecomeSessionsInOrder(ws: seq<Worker>, es: seq<Action>, n: nat)
    requires Run(ws, es) && n < |ws|
    ensures var w := ws[n];
            && w.started <= w.dispatched
            && (w.pc.Polling? ==> w.started + w.pendingFds == w.dispatched)
            && DistinctNumbers(w.erased)
            && (forall k: nat :: k < |w.started| ==> (k in w.erased <==> !Alive(w, k)))
            && (forall a, b :: a in w.sessions && b in w.sessions && a != b ==> w.sessions[a] != w.sessions[b])
  {
    RunInv(ws, es, n);
    var w := ws[n];
    assert w.started + (w.fds + w.pendingFds) == w.dispatched;
    assert w.fds == [] ==> w.fds + w.pendingFds == w.pendingFds;
  }

  /**
   A worker asleep with nothing to wake it has nothing to do: no finished session to remove, and a
   queued fd only if that fd's own dispatcher has yet to call notify.
   */
  lemma SleepingWorkerHasNothingToDo(ws: seq<Worker>, es: seq<Action>, n: nat)
    requires Run(ws, es) && n < |ws| && ws[n].pc.Polling? && !ws[n].notified
    ensures ws[n].finished == []
    ensures forall j :: 0 <= j < |ws[n].pendingFds| ==>
              && 0 <= DispatchOf(ws[n], j) < |ws[n].dispatched| && ws[n].pendingFds[j] == ws[n].dispatched[DispatchOf(ws[n], j)]
              && DispatchOf(ws[n], j) in ws[n].dispatching
    ensures ws[n].dispatching == {} ==> ws[n].started == ws[n].dispatched
  {
    RunInv(ws, es, n);
    var w := ws[n];
    assert w.fds == [] && w.started + w.fds == w.started;
    assert w.started + w.pendingFds == w.dispatched;
    if w.pendingFds != [] { assert DispatchOf(w, 0) in w.dispatching; }
    assert w.pendingFds == [] ==> w.started + w.pendingFds == w.started;
  }

  // ----- finished sessions -----

  /** The session numbered `k`, finished at address `a`, is erased or about to be. */
  predicate Leaving(w: Worker, a: Addr, k: nat) {
    k in w.erased || (a in w.finished && a in w.sessions && w.sessions[a] == k)
  }

  lemma LeavingStep(w: Worker, e: Action, a: Addr, k: nat)
    requires Inv(w) && Enabled(w, e) && Leaving(w, a, k)
    ensures Leaving(Step(w, e), a, k)
  {
    hide HandOff, Awake, Unique, Covered;
    if e.LoopRuns? && w.pc.RemoveSessions? && k !in w.erased {
      var i :| 0 <= i < |w.finished| && w.finished[i] == a;
      assert Numbers(w, w.finished)[i] == k && Step(w, e).erased[|w.erased| + i] == k;
    }
  }

  /** A session that finishes is erased: from then on it is in the list of the finished, or gone for good. */
  lemma {:induction false} FinishedAreErased(ws: seq<Worker>, es: seq<Action>, m: nat, n: nat, a: Addr)
    requires Run(ws, es) && m < n < |ws| && es[m] == SessionFinishes(a)
    ensures a in ws[m].sessions
    ensures ws[m].sessions[a] in ws[n].erased || (a in ws[n].finished && a in ws[n].sessions && ws[n].sessions[a] == ws[m].sessions[a])
    ensures ws[n].finished == [] ==> ws[m].sessions[a] in ws[n].erased && !Alive(ws[n], ws[m].sessions[a])
    decreases n
  {
    hide Inv, LoopStep;
    var k := ws[m].sessions[a];
    if n == m + 1 {
      assert a in ws[n].finished by { assert ws[n].finished[|ws[m].finished|] == a; }
    } else {
      FinishedAreErased(ws, es, m, n - 1, a);
      RunInv(ws, es, n - 1);
      LeavingStep(ws[n - 1], es[n - 1], a, k);
    }
    RunInv(ws, es, n);
    ErasedIsGone(ws[n], k);
  }

  lemma ErasedIsGone(w: Worker, k: nat)
    requires Inv(w)
    ensures k in w.erased ==> !Alive(w, k)
  {
  }

  /** At some moment before `n` the session numbered `k` finished. */
  ghost predicate HasFinished(ws: seq<Worker>, es: seq<Action>, n: nat, k: nat)
    requires n <= |es| < |ws|
  {
    exists m :: 0 <= m < n && es[m].SessionFinishes? && es[m].a in ws[m].sessions && ws[m].sessions[es[m].a] == k
  }

  /** Only sessions that have finished are erased. */
  lemma OnlyFinishedAreErased(ws: seq<Worker>, es: seq<Action>, n: nat, k: nat)
    requires Run(ws, es) && n < |ws| && k in ws[n].erased
    ensures HasFinished(ws, es, n, k)
  {
    hide Run;
    OnlyFinishedLeave(ws, es, n, 0, k);
  }

  lemma {:induction false} OnlyFinishedLeave(ws: seq<Worker>, es: seq<Action>, n: nat, a: Addr, k: nat)
    requires Run(ws, es) && n < |ws| && Leaving(ws[n], a, k)
    ensures HasFinished(ws, es, n, k)
    decreases n
  {
    hide Inv, Step, Leaving;
    if n == 0 {
      NobodyLeaves(a, k);
    } else {
      var w, e := ws[n - 1], es[n - 1];
      RunInv(ws, es, n - 1);
      LeftBefore(w, e, a, k);
      if b :| Leaving(w, b, k) {
        OnlyFinishedLeave(ws, es, n - 1, b, k);
        var m :| 0 <= m < n - 1 && es[m].SessionFinishes? && es[m].a in ws[m].sessions && ws[m].sessions[es[m].a] == k;
      }
    }
  }

  lemma NobodyLeaves(a: Addr, k: nat)
    ensures !Leaving(NewWorker, a, k)
  {
  }

  lemma LeftBefore(w: Worker, e: Action, a: Addr, k: nat)
    requires Inv(w) && Enabled(w, e) && Leaving(Step(w, e), a, k)
    ensures (exists b :: Leaving(w, b, k)) || (e.SessionFinishes? && e.a in w.sessions && w.sessions[e.a] == k)
  {
    hide HandOff, Awake, Unique, Covered;
    if e.LoopRuns? && w.pc.RemoveSessions? {
      ErasedBefore(w, e.spot, a, k);
    } else {
      assert Leaving(w, a, k) || (e.SessionFinishes? && e.a == a);
    }
  }

  lemma ErasedBefore(w: Worker, spot: Addr, a: Addr, k: nat)
    requires FinishedLive(w) && w.pc.RemoveSessions? && Leaving(LoopStep(w, spot), a, k)
    ensures exists b :: Leaving(w, b, k)
  {
    if k in w.erased {
      assert Leaving(w, a, k);
    } else {
      var gone := Numbers(w, w.finished);
      var i :| 0 <= i < |gone| && gone[i] == k;
      assert Leaving(w, w.finished[i], k);
    }
  }

  // ----- rounds of the loop -----

  /** How far a round that has to serve `d` dispatched fds has come. */
  predicate Serving(w: Worker, d: nat) {
    match w.pc
    case StartSessions => d <= |w.started| + |w.fds|
    case RemoveSessions => d <= |w.started|
    case Polling => d <= |w.started|
    case _ => d <= |w.dispatched|
  }

  lemma ServingStep(w: Worker, e: Action, d: nat)
    requires HandOff(w) && Enabled(w, e) && Serving(w, d) && !w.pc.Polling?
    ensures Serving(Step(w, e), d)
  {
    assert |w.dispatched| == |w.started| + |w.fds| + |w.pendingFds|;
  }

  /** The round has not yet drained the notifier, or has and nobody has notified since. */
  predicate Drained(w: Worker) { w.pc.DrainNotifier? || !w.notified }

  /**
   A round of the loop serves all it was woken for: every fd dispatched before it began is a session by its
   end, no finished session is left, and the notifier is set again only if somebody notified meanwhile.
   */
  lemma {:induction false} RoundServesAll(ws: seq<Worker>, es: seq<Action>, m: nat, n: nat)
    requires Run(ws, es) && m < n < |ws| && es[m].PollReturns? && forall j :: m < j < n ==> !ws[j].pc.Polling?
    ensures Serving(ws[n], |ws[m].dispatched|)
    ensures ws[n].pc.Polling? ==> |ws[m].dispatched| <= |ws[n].started| && ws[n].finished == []
    ensures es[m].ready && (forall j :: m < j < n ==> !es[j].Notify?) ==> Drained(ws[n])
    decreases n
  {
    hide Inv;
    if n > m + 1 {
      RoundServesAll(ws, es, m, n - 1);
      RunInv(ws, es, n - 1);
      assert HandOff(ws[n - 1]) by { InvHandsOff(ws[n - 1]); }
      ServingStep(ws[n - 1], es[n - 1], |ws[m].dispatched|);
    }
  }

  function Stage(pc: LoopPc): nat {
    match pc
    case DrainNotifier => 5
    case CheckFlag => 4
    case TakeFds => 3
    case StartSessions => 2
    case RemoveSessions => 1
    case Polling => 0
  }

  /**
   A round ends: each step of the loop brings it nearer to its next poll, whatever the dispatchers do, and it
   polls again only by getting there.
   */
  lemma RoundEnds(ws: seq<Worker>, es: seq<Action>, n: nat)
    requires Run(ws, es) && n < |es|
    ensures var w, w' := ws[n], ws[n + 1];
            && (es[n].LoopRuns? ==>
                  Stage(w'.pc) < Stage(w.pc) || (Stage(w'.pc) == Stage(w.pc) && |w'.fds| < |w.fds|))
            && (!es[n].LoopRuns? && !es[n].PollReturns? ==> w'.pc == w.pc && w'.fds == w.fds)
            && (es[n].PollReturns? ==> w.pc.Polling? && w'.pc == (if es[n].ready then DrainNotifier else CheckFlag))
            && (es[n].LoopRuns? && w'.pc.Polling? ==> w.pc.RemoveSessions?)
  {
    hide Inv;
    RunInv(ws, es, n);
    InvHandsOff(ws[n]);
  }

  lemma InvHandsOff(w: Worker)
    requires Inv(w)
    ensures HandOff(w)
  {
  }

  // ----- the worker in place -----

  /** The worker object; the lock-protected blocks and the turns of its loop are its methods. */
  class WorkerObject {
    var pendingFds: seq<int>
    var hasPendingFds: bool
    var notified: bool
    var pc: LoopPc
    var fds: seq<int>
    var sessions: map<Addr, nat>
    var finished: seq<Addr>
    var started: seq<int>
    ghost var dispatching: set<nat>
    ghost var dispatched: seq<int>
    ghost var erased: seq<nat>

    ghost function View(): Worker
      reads this
    {
      Worker(pendingFds, hasPendingFds, notified, dispatching, pc, fds, sessions, finished, dispatched, started, erased)
    }

    constructor ()
      ensures View() == NewWorker
    {
      pendingFds, hasPendingFds, notified, dispatching, pc := [], false, false, {}, CheckFlag;
      fds, sessions, finished, started, dispatched, erased := [], map[], [], [], [], [];
    }

    /** `dispatchFd`, under the lock. */
    method EnqueueFd(fd: int)
      modifies this
      ensures View() == Step(old(View()), Enqueue(fd))
    {
      pendingFds := pendingFds + [fd];
      hasPendingFds := true;
      dispatching, dispatched := dispatching + {|dispatched|}, dispatched + [fd];
    }

    /** `reapFds`, under the lock. */
    method TakePending()
      modifies this
      ensures View() == LoopStep(old(View()).(pc := TakeFds), 0)
    {
      fds, pendingFds, hasPendingFds := pendingFds, [], false;
      pc := StartSessions;
    }

    /** One turn of the loop of `reapFds`. */
    method StartNext(spot: Addr)
      requires fds != []
      modifies `fds, `sessions, `started
      ensures View() == LoopStep(old(View()).(pc := StartSessions), spot).(pc := pc)
    {
      sessions := sessions[spot := |started|];
      started := started + [fds[0]];
      fds := fds[1..];
    }

    /** `reapSessions`: each finished session is erased, one after the other. */
    method ReapSessions()
      modifies `sessions, `finished, `erased
      ensures View() == LoopStep(old(View()).(pc := RemoveSessions), 0).(pc := pc)
    {
      erased := erased + (if forall i :: 0 <= i < |finished| ==> finished[i] in sessions
                          then Numbers(View(), finished) else []);
      EraseFinished();
      finished := [];
    }

    method EraseFinished()
      modifies `sessions
      ensures sessions == Removed(old(sessions), finished)
    {
      var i := 0;
      while i < |finished|
        invariant i <= |finished| && sessions == Removed(old(sessions), finished[..i])
      {
        sessions := sessions - {finished[i]};
        assert forall j :: 0 <= j < i ==> finished[..i + 1][j] == finished[..i][j];
        i := i + 1;
      }
      assert finished[..i] == finished;
    }

    /** The polling coroutine, up to the next point where a dispatcher can come between. */
    method LoopTurn(spot: Addr)
      modifies this
      ensures View() == LoopStep(old(View()), spot)
    {
      match pc
      case CheckFlag => pc := if hasPendingFds then TakeFds else RemoveSessions;
      case TakeFds => TakePending();
      case StartSessions => if fds == [] { pc := RemoveSessions; } else { StartNext(spot); }
      case RemoveSessions => ReapSessions(); pc := Polling;
      case DrainNotifier => notified, pc := false, CheckFlag;
      case Polling =>
    }

    /** Whatever the threads do next, the object does what the transition system does. */
    method Act(e: Action)
      requires Enabled(View(), e)
      modifies this
      ensures View() == Step(old(View()), e)
    {
      hide LoopStep;
      match e
      case Enqueue(fd) => EnqueueFd(fd);
      case Notify(k) => notified, dispatching := true, dispatching - {k};
      case LoopRuns(spot) => LoopTurn(spot);
      case PollReturns(ready) => pc := if ready then DrainNotifier else CheckFlag;
      case SessionFinishes(a) => finished, notified := finished + [a], true;
    }
  }
}
