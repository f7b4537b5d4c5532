/** A channel object and its socket: what `writerLoop` pops is what the socket is given, batch by batch. */
module Sending {
  import opened Resp
  import opened Signals
  import opened Framing
  import opened Channels
  import opened Proxy
  import opened Connections
  import opened Objects
  import CoSockets
  import ProxyInv
  import ProxySteps

  /** How many whole frames lie in the first `n` bytes. */
  method WholeFrames(frames: seq<Request>, n: nat) returns (k: nat)
    requires n <= |FrameBytes(frames)|
    ensures k <= |frames| && |FrameBytes(frames[..k])| <= n
    ensures k < |frames| ==> n < |FrameBytes(frames[..k + 1])|
    ensures n == |FrameBytes(frames)| ==> k == |frames|
  {
    k := |frames|;
    assert frames[..k] == frames && frames[..0] == [] && FrameBytes([]) == [];
    while |FrameBytes(frames[..k])| > n
      invariant k <= |frames| && n <= |FrameBytes(frames)|
      invariant k < |frames| ==> n < |FrameBytes(frames[..k + 1])|
      invariant n == |FrameBytes(frames)| ==> k == |frames|
      decreases k
    {
      k := k - 1;
    }
  }

  lemma FramesMore(popped: seq<RequestBatch>, b: RequestBatch)
    ensures Frames(popped + [b]) == Frames(popped) + b.frames && Commands(popped + [b]) == Commands(popped) + b.tags
  {
    var more := popped + [b];
    assert more[..|more| - 1] == popped && more[|more| - 1] == b;
  }

  /** The bytes of one more batch, cut after `k` whole frames, behind everything before it. */
  lemma WritesMore(h: Connection, b: RequestBatch, before: Bytes, wire: Bytes, k: nat)
    requires Writes(h, before) && h.carried == Commands(h.popped) && |b.frames| == |b.tags| && k <= |b.frames|
    requires before <= wire <= before + FrameBytes(b.frames)
    requires |FrameBytes(b.frames[..k])| <= |wire| - |before|
    requires k < |b.frames| ==> |wire| - |before| < |FrameBytes(b.frames[..k + 1])|
    ensures Writes(Connection(h.popped + [b], h.carried + b.tags[..k]), wire)
  {
    hide FrameBytes, Frames, Commands;
    FramesMore(h.popped, b);
    var sent, all := Frames(h.popped), Frames(h.popped + [b]);
    var n := |sent|;
    assert sent[..n] == sent && before == FrameBytes(sent);
    FrameBytesConcat(sent, b.frames);
    FrameBytesConcat(sent, b.frames[..k]);
    assert all[..n + k] == sent + b.frames[..k];
    FrameBytesConcat(b.frames[..k], b.frames[k..]);
    assert b.frames[..k] + b.frames[k..] == b.frames;
    assert FrameBytes(b.frames[..k]) <= FrameBytes(b.frames);
    if k < |b.frames| {
      FrameBytesConcat(sent, b.frames[..k + 1]);
      assert all[..n + k + 1] == sent + b.frames[..k + 1];
    }
    assert (Commands(h.popped) + b.tags)[..n + k] == Commands(h.popped) + b.tags[..k];
  }

  /** A new connection has written nothing. */
  lemma WritesNothing()
    ensures Writes(Connection([], []), [])
  {
  }

  /** In every run, a channel about to take a batch has carried everything it took before, and the batch is whole. */
  lemma ReadyToWrite(cfg: Config, ws: seq<World>, es: seq<Event>, n: nat, c: nat)
    requires cfg.Valid() && Run(cfg, ws, es) && n < |ws| && c < |ws[n].channels|
    requires var ch := ws[n].channels[c]; ch.state.Ready? && ch.run.BatchTop? && ch.writeQueue != []
    ensures var ch := ws[n].channels[c];
            && ch.conn.carried == Commands(ch.conn.popped)
            && |ch.writeQueue[0].frames| == |ch.writeQueue[0].tags| && AllJudged(cfg, ch.writeQueue[0].frames)
  {
    hide Run, ProxyInv.Inv, Origin, Commands, AllJudged;
    var ch := ws[n].channels[c];
    WholeBatchesInOrder(cfg, ws, es, n, c);
    ProxySteps.RunInv(cfg, ws, es, n);
    ProxySteps.LocalChannel(cfg, ws[n], c);
    assert ch.unsent == [] && ch.conn.carried + [] == ch.conn.carried;
    BatchesWereAsked(cfg, ws, es, n, c, ch.writeQueue[0]);
    var m :| 0 <= m <= n && Origin(ws[m], ch.writeQueue[0]);
    ProxySteps.RunInv(cfg, ws, es, m);
    OriginJudged(cfg, ws[m], ch.writeQueue[0]);
  }

  /**
   One batch of `writerLoop`: the head of the write queue takes its reply slots, its bytes go to the
   socket, and the commands that have gone out whole are the ones the channel has carried.  Success
   means all of them; a failure, or a suspension, leaves a prefix.
   */
  method WriteBatch(ch: BackendChannel, sock: CoSockets.CoSocket, slices: seq<Bytes>, kernel: seq<CoSockets.Kernel>)
    returns (status: CoSockets.WriteStatus, k: nat)
    requires ch.state.Ready? && ch.out.run.BatchTop? && ch.writerSignal.waiter.Running? && ch.writeQueue != []
    requires ch.out.conn.carried == Commands(ch.out.conn.popped) && Writes(ch.out.conn, sock.wire)
    requires var b := ch.writeQueue[0]; |b.frames| == |b.tags| && CoSockets.Flatten(slices) == FrameBytes(b.frames)
    modifies ch, sock
    ensures k <= |old(ch.writeQueue)[0].tags| && RunStep(old(ch.View())).unsent == old(ch.writeQueue)[0].tags
    ensures ch.View() == Transmitted(RunStep(old(ch.View())), k)
    ensures Writes(ch.out.conn, sock.wire)
    ensures status.WriteOk? ==> k == |old(ch.writeQueue)[0].tags| && ch.out.conn.carried == Commands(ch.out.conn.popped)
  {
    hide Writes, Frames, FrameBytes, CoSockets.Flatten, Commands;
    var b := ch.writeQueue[0];
    var h, before := ch.out.conn, sock.wire;
    ch.WriterTurn();
    status := sock.WriteAll(slices, kernel);
    k := WholeFrames(b.frames, |sock.wire| - |before|);
    ch.Send(k);
    WritesMore(h, b, before, sock.wire, k);
    FramesMore(h.popped, b);
    if k == |b.tags| { assert b.tags[..k] == b.tags; }
  }
}
