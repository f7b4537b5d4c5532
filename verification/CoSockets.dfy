/** `CoSocket::writeAll`: a scatter-write cursor against an arbitrary kernel. */
module CoSockets {
  import opened Resp
  import opened Framing

  /** What the kernel does at one turn: takes up to `n` bytes, is full (and becomes ready or times out), or fails. */
  datatype Kernel = Wrote(n: nat) | WouldBlock(ready: bool) | Failed

  /** `Suspended`: the kernel has not answered yet; the coroutine is still inside `writeAll`. */
  datatype WriteStatus = WriteOk | IoError | Suspended

  /** How a turn of the loop ends. */
  datatype Outcome = Finished | GaveUp | OnGoing

  const IOV_MAX := 64

  function Flatten(slices: seq<Bytes>): Bytes {
    if slices == [] then [] else slices[0] + Flatten(slices[1..])
  }

  /** The bytes from the cursor on: the rest of slice `index`, then the slices after it. */
  function Rest(slices: seq<Bytes>, index: nat, offset: nat): Bytes
    requires index <= |slices| && (index < |slices| ==> offset <= |slices[index]|)
  {
    if index == |slices| then [] else slices[index][offset..] + Flatten(slices[index + 1..])
  }

  predicate Good(k: Kernel) { (k.Wrote? && k.n > 0) || (k.WouldBlock? && k.ready) }

  /** How many of the answers let bytes through. */
  function Turns(kernel: seq<Kernel>): nat {
    if kernel == [] then 0 else (if kernel[0].Wrote? then 1 else 0) + Turns(kernel[1..])
  }

  lemma {:induction false} TurnsAppend(q: seq<Kernel>, k: Kernel)
    ensures Turns(q + [k]) == Turns(q) + (if k.Wrote? then 1 else 0)
  {
    if q == [] {
      assert q + [k] == [k] && [k][1..] == [];
    } else {
      TurnsAppend(q[1..], k);
      assert (q + [k])[1..] == q[1..] + [k];
    }
  }

  lemma {:induction false} FlattenAppend(q: seq<Bytes>, x: Bytes)
    ensures Flatten(q + [x]) == Flatten(q) + x
  {
    if q == [] {
      assert q + [x] == [x] && [x][1..] == [];
    } else {
      FlattenAppend(q[1..], x);
      assert (q + [x])[1..] == q[1..] + [x];
    }
  }

  lemma RestSplit(slices: seq<Bytes>, index: nat, offset: nat)
    requires index < |slices| && offset <= |slices[index]|
    ensures Rest(slices, index, offset) == slices[index][offset..] + Rest(slices, index + 1, 0)
  {
    if index + 1 < |slices| {
      assert slices[index + 1..][0] == slices[index + 1] && slices[index + 1..][1..] == slices[index + 2..];
    }
  }

  /** Appending the rest of a slice to the pieces moves the cursor to the next slice. */
  lemma AddPiece(pieces: seq<Bytes>, slices: seq<Bytes>, index: nat, offset: nat)
    requires index < |slices| && offset <= |slices[index]|
    ensures Flatten(pieces + [slices[index][offset..]]) + Rest(slices, index + 1, 0)
            == Flatten(pieces) + Rest(slices, index, offset)
  {
    hide Rest, Flatten;
    RestSplit(slices, index, offset);
    FlattenAppend(pieces, slices[index][offset..]);
    assert (Flatten(pieces) + slices[index][offset..]) + Rest(slices, index + 1, 0)
        == Flatten(pieces) + (slices[index][offset..] + Rest(slices, index + 1, 0));
  }

  /** Dropping bytes from the rest moves the cursor within a slice, or to the next one. */
  lemma RestDrop(slices: seq<Bytes>, index: nat, offset: nat, k: nat)
    requires index < |slices| && offset + k <= |slices[index]|
    ensures k <= |Rest(slices, index, offset)|
    ensures Rest(slices, index, offset)[k..] == Rest(slices, index, offset + k)
    ensures offset + k == |slices[index]| ==> Rest(slices, index, offset)[k..] == Rest(slices, index + 1, 0)
  {
    hide Rest;
    RestSplit(slices, index, offset);
    RestSplit(slices, index, offset + k);
    ConcatDrop(slices[index][offset..], Rest(slices, index + 1, 0), k);
    DropDrop(slices[index], offset, k);
  }

  lemma ConcatDrop(x: Bytes, y: Bytes, k: nat)
    requires k <= |x|
    ensures (x + y)[k..] == x[k..] + y
  {
  }

  lemma DropDrop(s: Bytes, i: nat, k: nat)
    requires i + k <= |s|
    ensures s[i..][k..] == s[i + k..]
  {
  }

  class CoSocket {
    var wire: Bytes  // every byte the kernel has taken, in order

    constructor ()
      ensures wire == []
    {
      wire := [];
    }

    /** At most 64 non-empty pieces, contiguous from the cursor, and all there are if fewer; none exactly when nothing is left. */
    method BuildIov(slices: seq<Bytes>, index: nat, offset: nat) returns (iov: array<Bytes>, iovcnt: nat)
      requires index < |slices| && offset <= |slices[index]|
      ensures fresh(iov) && iovcnt <= iov.Length == IOV_MAX
      ensures Flatten(iov[..iovcnt]) <= Rest(slices, index, offset)
      ensures iovcnt == 0 <==> Rest(slices, index, offset) == []
      ensures iovcnt < IOV_MAX ==> Flatten(iov[..iovcnt]) == Rest(slices, index, offset)
      ensures forall j :: 0 <= j < iovcnt ==> iov[j] != []
    {
      hide Rest, Flatten;
      iov := new Bytes[IOV_MAX];
      iovcnt := 0;
      ghost var pieces: seq<Bytes> := [];
      var i := index;
      NoPieces();
      while i < |slices| && iovcnt < IOV_MAX
        invariant index <= i <= |slices| && iovcnt <= IOV_MAX
        invariant i == index ==> iovcnt == 0
        invariant iov[..iovcnt] == pieces
        invariant Rest(slices, index, offset) == Flatten(pieces) + Rest(slices, i, if i == index then offset else 0)
        invariant forall j :: 0 <= j < iovcnt ==> iov[j] != []
      {
        var sliceOffset := if i == index then offset else 0;
        if |slices[i]| <= sliceOffset {
          RestSplit(slices, i, sliceOffset);
          i := i + 1;
          continue;
        }
        AddPiece(pieces, slices, i, sliceOffset);
        iov[iovcnt] := slices[i][sliceOffset..];
        pieces := pieces + [slices[i][sliceOffset..]];
        iovcnt := iovcnt + 1;
        i := i + 1;
      }
      FirstIsOffered(pieces);
      NothingAfterLast(slices);
      assert iovcnt > 0 ==> pieces[0] == iov[0];
      if i == |slices| { assert Flatten(pieces) + [] == Flatten(pieces); }
    }

    /** Moves the cursor over `n` bytes, past any slice they exhaust. */
    method Advance(slices: seq<Bytes>, index: nat, offset: nat, n: nat) returns (index': nat, offset': nat)
      requires index <= |slices| && (index < |slices| ==> offset <= |slices[index]|)
      requires n <= |Rest(slices, index, offset)|
      ensures index' <= |slices| && (index' < |slices| ==> offset' <= |slices[index']|)
      ensures Rest(slices, index', offset') == Rest(slices, index, offset)[n..]
    {
      hide Rest, Flatten;
      index', offset' := index, offset;
      var written: nat := n;
      ghost var all := Rest(slices, index, offset);
      NothingAfterLast(slices);
      while written > 0 && index' < |slices|
        invariant index' <= |slices| && (index' < |slices| ==> offset' <= |slices[index']|)
        invariant written <= n && Rest(slices, index', offset') == all[n - written..]
        invariant index' == |slices| ==> offset' == 0 || (index' == index && offset' == offset)
        decreases |slices| - index', written
      {
        var available: nat := |slices[index']| - offset';
        var step: nat := Min(written, available);
        RestDrop(slices, index', offset', step);
        DropDrop(all, n - written, step);
        if written < available {
          offset' := offset' + written;
          written := 0;
        } else {
          written := written - available;
          index' := index' + 1;
          offset' := 0;
        }
      }
      RestAtEnd(slices, offset');
    }

    /**
     One turn of the loop: either nothing is left to write, or the kernel's answer is acted on.  The
     cursor moves over exactly the bytes that have reached the wire.
     */
    method Turn(slices: seq<Bytes>, index: nat, offset: nat, answer: Kernel)
      returns (outcome: Outcome, index': nat, offset': nat, ghost m: nat)
      requires index < |slices| && offset <= |slices[index]|
      modifies this
      ensures outcome.Finished? <==> Rest(slices, index, offset) == []
      ensures outcome.GaveUp? <==> !outcome.Finished? && !Good(answer)
      ensures index' <= |slices| && (index' < |slices| ==> offset' <= |slices[index']|)
      ensures m <= |Rest(slices, index, offset)| && wire == old(wire) + Rest(slices, index, offset)[..m]
      ensures Rest(slices, index', offset') == Rest(slices, index, offset)[m..]
      ensures !outcome.OnGoing? ==> m == 0
      ensures outcome.OnGoing? && answer.Wrote? ==> m > 0
    {
      hide Rest, Flatten;
      index', offset', m := index, offset, 0;
      ghost var rest := Rest(slices, index, offset);
      assert rest[..0] == [] && rest[0..] == rest;
      var iov, iovcnt := BuildIov(slices, index, offset);
      if iovcnt == 0 {
        return Finished, index, offset, 0;
      }
      FirstIsOffered(iov[..iovcnt]);
      match answer {
        case Wrote(n) =>
          if n == 0 { return GaveUp, index, offset, 0; }
          var took := Take(iov, iovcnt, n);
          m := |took|;
          assert took == rest[..m];
          wire := wire + took;
          index', offset' := Advance(slices, index, offset, |took|);
        case WouldBlock(ready) =>
          if !ready { return GaveUp, index, offset, 0; }
        case Failed =>
          return GaveUp, index, offset, 0;
      }
      outcome := OnGoing;
    }

    /**
     Whatever the kernel does, what it has taken is at every moment a prefix of the chain; on success
     it is the whole chain.  Failure needs a bad answer, and enough good ones always finish.
     */
    method WriteAll(slices: seq<Bytes>, kernel: seq<Kernel>) returns (status: WriteStatus)
      modifies this
      ensures old(wire) <= wire <= old(wire) + Flatten(slices)
      ensures status.WriteOk? ==> wire == old(wire) + Flatten(slices)
      ensures status.IoError? ==> exists k :: 0 <= k < |kernel| && !Good(kernel[k])
      ensures status.Suspended? ==> forall k :: 0 <= k < |kernel| ==> Good(kernel[k])
      ensures (Turns(kernel) >= |Flatten(slices)| && forall k :: 0 <= k < |kernel| ==> Good(kernel[k])) ==> status.WriteOk?
    {
      hide Rest, Flatten, Turns, Progress;
      var index: nat, offset: nat := 0, 0;
      var turn: nat := 0;
      ghost var all := Flatten(slices);
      ghost var sent: nat := 0;
      AtStart(slices, wire);
      NoTurns(kernel);
      while index < |slices|
        invariant Progress(slices, index, offset, sent, old(wire), wire)
        invariant turn <= |kernel| && forall k :: 0 <= k < turn ==> Good(kernel[k])
        invariant sent >= Turns(kernel[..turn])
        decreases |kernel| - turn
      {
        InBounds(slices, index, offset, sent, old(wire), wire);
        if turn == |kernel| {
          var iov, iovcnt := BuildIov(slices, index, offset);
          InBounds(slices, index, offset, sent, old(wire), wire);
          assert kernel[..turn] == kernel;
          return if iovcnt == 0 then WriteOk else Suspended;
        }
        ghost var before := wire;
        var outcome, index', offset', m := Turn(slices, index, offset, kernel[turn]);
        Advances(slices, index, offset, sent, old(wire), before, index', offset', m, wire);
        index, offset, sent := index', offset', sent + m;
        if outcome.Finished? { return WriteOk; }
        if outcome.GaveUp? { return IoError; }
        assert kernel[..turn + 1] == kernel[..turn] + [kernel[turn]];
        TurnsAppend(kernel[..turn], kernel[turn]);
        turn := turn + 1;
      }
      InBounds(slices, index, offset, sent, old(wire), wire);
      RestAtEnd(slices, offset);
      return WriteOk;
    }

    /** The kernel takes at least one and at most `n` of the bytes offered. */
    method Take(iov: array<Bytes>, iovcnt: nat, n: nat) returns (took: Bytes)
      requires iovcnt <= iov.Length && 0 < n && Flatten(iov[..iovcnt]) != []
      ensures took != [] && |took| <= n && took <= Flatten(iov[..iovcnt])
    {
      var all := Flatten(iov[..iovcnt]);
      took := all[..Min(n, |all|)];
    }

    /**
     The writing side of a connection: batches go out whole and one after the other; only the last
     one reached can be cut.
     */
    method WriteInTurn(batches: seq<seq<Bytes>>, kernels: seq<seq<Kernel>>) returns (k: nat, status: WriteStatus)
      requires |kernels| == |batches|
      modifies this
      ensures k <= |batches| && (status.WriteOk? <==> k == |batches|)
      ensures old(wire) + FlattenAll(batches[..k]) <= wire
      ensures k == |batches| ==> wire == old(wire) + FlattenAll(batches)
      ensures k < |batches| ==> wire <= old(wire) + FlattenAll(batches[..k]) + Flatten(batches[k])
    {
      k, status := 0, WriteOk;
      while k < |batches|
        invariant k <= |batches| && status.WriteOk?
        invariant wire == old(wire) + FlattenAll(batches[..k])
      {
        status := WriteAll(batches[k], kernels[k]);
        if !status.WriteOk? { return; }
        assert batches[..k + 1][..k] == batches[..k];
        k := k + 1;
      }
      assert batches[..k] == batches;
    }
  }

  /** `sent` bytes of the chain are on the wire behind what was there, and the rest starts at the cursor. */
  predicate Progress(slices: seq<Bytes>, index: nat, offset: nat, sent: nat, before: Bytes, wire: Bytes) {
    && index <= |slices| && (index < |slices| ==> offset <= |slices[index]|)
    && sent <= |Flatten(slices)| && wire == before + Flatten(slices)[..sent]
    && Rest(slices, index, offset) == Flatten(slices)[sent..]
  }

  lemma AtStart(slices: seq<Bytes>, wire: Bytes)
    ensures Progress(slices, 0, 0, 0, wire, wire)
  {
    hide Rest, Flatten;
    RestAtStart(slices);
    var all := Flatten(slices);
    assert all[..0] == [] && all[0..] == all;
  }

  lemma InBounds(slices: seq<Bytes>, index: nat, offset: nat, sent: nat, before: Bytes, wire: Bytes)
    requires Progress(slices, index, offset, sent, before, wire)
    ensures index <= |slices| && (index < |slices| ==> offset <= |slices[index]|) && sent <= |Flatten(slices)|
    ensures before <= wire <= before + Flatten(slices)
    ensures Rest(slices, index, offset) == [] <==> sent == |Flatten(slices)|
    ensures sent == |Flatten(slices)| ==> wire == before + Flatten(slices)
  {
    hide Rest, Flatten;
    var all := Flatten(slices);
    if sent == |all| { assert all[..sent] == all; }
  }

  lemma Advances(slices: seq<Bytes>, index: nat, offset: nat, sent: nat, before: Bytes, wire: Bytes,
                 index': nat, offset': nat, m: nat, wire': Bytes)
    requires Progress(slices, index, offset, sent, before, wire)
    requires index' <= |slices| && (index' < |slices| ==> offset' <= |slices[index']|)
    requires m <= |Rest(slices, index, offset)| && wire' == wire + Rest(slices, index, offset)[..m]
    requires Rest(slices, index', offset') == Rest(slices, index, offset)[m..]
    ensures Progress(slices, index', offset', sent + m, before, wire')
  {
    hide Rest, Flatten;
    var all := Flatten(slices);
    DropDrop(all, sent, m);
    assert all[sent..][..m] == all[sent..sent + m] && all[..sent] + all[sent..sent + m] == all[..sent + m];
  }

  lemma NoPieces()
    ensures Flatten([]) == []
  {
  }

  lemma NothingAfterLast(slices: seq<Bytes>)
    ensures Rest(slices, |slices|, 0) == []
  {
  }

  lemma RestAtEnd(slices: seq<Bytes>, offset: nat)
    ensures Rest(slices, |slices|, offset) == []
  {
  }

  lemma RestAtStart(slices: seq<Bytes>)
    ensures Rest(slices, 0, 0) == Flatten(slices)
  {
    if slices != [] { assert slices[0][0..] == slices[0]; }
  }

  lemma NoTurns(kernel: seq<Kernel>)
    ensures Turns(kernel[..0]) == 0
  {
  }

  lemma FirstIsOffered(q: seq<Bytes>)
    ensures q != [] && q[0] != [] ==> Flatten(q) != []
  {
  }

  function FlattenAll(batches: seq<seq<Bytes>>): Bytes {
    if batches == [] then []
    else FlattenAll(batches[..|batches| - 1]) + Flatten(batches[|batches| - 1])
  }

  /** The requests of all the batches, in order. */
  function Concat(rss: seq<seq<Request>>): seq<Request> {
    if rss == [] then [] else Concat(rss[..|rss| - 1]) + rss[|rss| - 1]
  }

  lemma {:induction false} BatchBytes(batches: seq<seq<Bytes>>, rss: seq<seq<Request>>)
    requires |rss| == |batches| && forall i :: 0 <= i < |rss| ==> Flatten(batches[i]) == FrameBytes(rss[i])
    ensures FlattenAll(batches) == FrameBytes(Concat(rss))
  {
    if rss != [] {
      BatchBytes(batches[..|batches| - 1], rss[..|rss| - 1]);
      FrameBytesConcat(Concat(rss[..|rss| - 1]), rss[|rss| - 1]);
    }
  }

  /**
   What Redis can make of such a connection: all the commands of the whole batches, and of the last
   one a prefix of its commands -- none of them altered, merged or out of order.
   */
  lemma RedisSeesWholeCommands(cfg: Config, batches: seq<seq<Bytes>>, rss: seq<seq<Request>>,
                               last: seq<Request>, cut: nat) returns (j: nat)
    requires |rss| == |batches| && forall i :: 0 <= i < |rss| ==> Flatten(batches[i]) == FrameBytes(rss[i])
    requires AllJudged(cfg, Concat(rss)) && AllJudged(cfg, last) && cut < |FrameBytes(last)|
    ensures j < |last|
    ensures Classify(cfg, FlattenAll(batches) + FrameBytes(last)[..cut], false) == Concat(rss) + last[..j]
  {
    hide AllJudged, Classify;
    BatchBytes(batches, rss);
    j := CutBetweenFrames(cfg, last, cut);
    ClassifyTaken(cfg, Concat(rss), FrameBytes(last)[..cut], false);
  }
}
