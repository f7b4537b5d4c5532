/**
 The owners that `failConnection` collects sit in an unordered set, and each callback aborts one
 session.  Telling them one at a time, in any order, is telling them all.
 */
module OwnerCalls {
  import opened Resp
  import opened Channels
  import opened Sessions
  import opened Proxy

  function Noted(sessions: map<Addr, Session>, s: set<Addr>): map<Addr, Session> {
    map a | a in sessions :: if a in s then sessions[a].(failures := sessions[a].failures + 1) else sessions[a]
  }

  /** `onBackendFailure` of every session in `s`. */
  function Tell(w: World, s: set<Addr>): World { Abort(w.(sessions := Noted(w.sessions, s)), s) }

  /** What `failConnection` has done before its first callback. */
  function Emptied(w: World, c: nat): World
    requires c < |w.channels|
  {
    w.(channels := w.channels[c := Clear(w.channels[c])],
       fate := Settle(w.fate, OwnedBy([w.channels[c]], Owners(w.channels[c])), Failed))
  }

  lemma FailureIsTelling(w: World, c: nat)
    requires c < |w.channels| && w.channels[c].state.Ready?
    ensures FailConnection(w, c) == Tell(Emptied(w, c), Owners(w.channels[c]))
  {
  }

  lemma {:induction false} EraseTwice(q: seq<RequestBatch>, s: set<Addr>, t: set<Addr>)
    ensures Erase(Erase(q, s), t) == Erase(q, s + t)
  {
    if q != [] {
      EraseTwice(q[1..], s, t);
      if q[0].owner !in s {
        assert ([q[0]] + Erase(q[1..], s))[1..] == Erase(q[1..], s);
      }
    }
  }

  lemma DetachTwice(ch: Channel, s: set<Addr>, t: set<Addr>)
    ensures Detach(Detach(ch, s), t) == Detach(ch, s + t)
  {
    EraseTwice(ch.writeQueue, s, t);
    assert DisownAll(DisownAll(ch.pendingQueue, s), t) == DisownAll(ch.pendingQueue, s + t);
  }

  lemma DetachAllTwice(chs: seq<Channel>, s: set<Addr>, t: set<Addr>)
    ensures DetachAll(DetachAll(chs, s), t) == DetachAll(chs, s + t)
  {
    hide Detach;
    forall c | 0 <= c < |chs| ensures Detach(Detach(chs[c], s), t) == Detach(chs[c], s + t) {
      DetachTwice(chs[c], s, t);
    }
  }

  lemma OwnedAfter(ch: Channel, s: set<Addr>, a: Addr)
    ensures Owned(Detach(ch, s), a) == if a in s then [] else Owned(ch, a)
  {
    EraseKeeps(ch.writeQueue, s, a);
    DisownKeeps(ch.pendingQueue, s, a);
  }

  lemma OwnedByAfter(chs: seq<Channel>, s: set<Addr>, t: set<Addr>)
    requires s !! t
    ensures OwnedBy(DetachAll(chs, s), t) == OwnedBy(chs, t)
  {
    hide Detach, Owned;
    forall c, a | 0 <= c < |chs| && a in t ensures Owned(DetachAll(chs, s)[c], a) == Owned(chs[c], a) {
      OwnedAfter(chs[c], s, a);
    }
  }

  lemma OwnedByUnion(chs: seq<Channel>, s: set<Addr>, t: set<Addr>)
    ensures OwnedBy(chs, s + t) == OwnedBy(chs, s) + OwnedBy(chs, t)
  {
    hide Owned;
  }

  lemma SettleTwice(fate: map<Tag, Fate>, s: set<Tag>, t: set<Tag>, f: Fate)
    ensures Settle(Settle(fate, s, f), t, f) == Settle(fate, s + t, f)
  {
  }

  lemma LiveAfter(w: World, s: set<Addr>, t: set<Addr>)
    ensures Live(Abort(w, s), t) == Live(w, t) - Live(w, s)
    ensures Live(w, s + t) == Live(w, s) + Live(w, t)
  {
  }

  /** Aborting in two rounds is aborting at once. */
  lemma AbortTwice(w: World, s: set<Addr>, t: set<Addr>)
    ensures Abort(Abort(w, s), t) == Abort(w, s + t)
  {
    hide DetachAll, OwnedBy, Settle, AbortSession, Live;
    var first, second := Live(w, s), Live(Abort(w, s), t);
    LiveAfter(w, s, t);
    assert Live(w, s + t) == first + second;
    DetachAllTwice(w.channels, first, second);
    OwnedByAfter(w.channels, first, second);
    OwnedByUnion(w.channels, first, second);
    SettleTwice(w.fate, OwnedBy(w.channels, first), OwnedBy(w.channels, second), Discarded);
    assert Abort(Abort(w, s), t).sessions == Abort(w, s + t).sessions;
  }

  /** A session that is told while others have been told before it. */
  lemma NotedLater(w: World, s: set<Addr>, a: Addr)
    requires a !in s
    ensures var told := Tell(w, s);
            told.(sessions := Noted(told.sessions, {a})) == Abort(w.(sessions := Noted(w.sessions, s + {a})), s)
  {
    hide DetachAll, OwnedBy, Settle;
    var told := Tell(w, s);
    var noted := w.(sessions := Noted(w.sessions, s + {a}));
    assert Live(noted, s) == Live(w.(sessions := Noted(w.sessions, s)), s);
    assert Noted(told.sessions, {a}) == Abort(noted, s).sessions;
  }

  lemma TellOneMore(w: World, s: set<Addr>, a: Addr)
    requires a !in s
    ensures Tell(Tell(w, s), {a}) == Tell(w, s + {a})
  {
    hide Abort, Noted;
    NotedLater(w, s, a);
    AbortTwice(w.(sessions := Noted(w.sessions, s + {a})), s, {a});
  }

  lemma TellNobody(w: World)
    ensures Tell(w, {}) == w
  {
    assert Live(w.(sessions := Noted(w.sessions, {})), {}) == {};
    assert Noted(w.sessions, {}) == w.sessions;
    forall c | 0 <= c < |w.channels| ensures Detach(w.channels[c], {}) == w.channels[c] {
      EraseNone(w.channels[c].writeQueue);
      assert DisownAll(w.channels[c].pendingQueue, {}) == w.channels[c].pendingQueue;
    }
    assert DetachAll(w.channels, {}) == w.channels;
    assert Settle(w.fate, {}, Discarded) == w.fate;
    assert OwnedBy(w.channels, {}) == {};
  }

  lemma {:induction false} EraseNone(q: seq<RequestBatch>)
    ensures Erase(q, {}) == q
  {
    if q != [] { EraseNone(q[1..]); }
  }
}
