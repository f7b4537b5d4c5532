/**
 From bytes to requests on the real buffers: `peekFrame`, `nextReplyFrame` and the batch scan at the
 head of `ClientSession::readerLoop`, which looks at frames through the linear view and then cuts
 them off as slices.
 */
module Intake {
  import opened Resp
  import opened Framing
  import opened Buffers
  import CoSockets

  /** `extractCommandInfo`. */
  method ExtractCommandInfo(value: Value) returns (found: bool, name: Bytes, argc: nat)
    ensures found <==> IsCommand(value)
    ensures found ==> name == value.elems[0].text && argc == |value.elems|
  {
    found, name, argc := false, [], 0;
    if !value.Array? || value.elems == [] { return; }
    var i := 0;
    while i < |value.elems|
      invariant i <= |value.elems| && forall k :: 0 <= k < i ==> value.elems[k].Bulk?
    {
      if !value.elems[i].Bulk? { return; }
      i := i + 1;
    }
    found, name, argc := true, value.elems[0].text, |value.elems|;
  }

  /** `peekFrame`: the verdict on the bytes from `offset` on, which all stay where they are. */
  method PeekFrame(cfg: Config, parser: RespParser, input: IoBuffer, offset: nat) returns (p: Peeked)
    requires parser.Valid() && parser.limits == cfg.limits && parser.maxFrame == cfg.maxFrame && input.Valid()
    modifies parser, input`linearized, input`linearizedOffset
    ensures parser.Valid() && input.Valid() && input.Contents() == old(input.Contents())
    ensures p == if offset > |input.Contents()| then PeekBad else Peek(cfg, input.Contents()[offset..])
    ensures input.pool.Undisturbed(input)
  {
    hide IoBuffer.Contents, IoBuffer.Accurate, BlockPool.Owing, BlockPool.Seen, Kept, Unpacked;
    Same(input.pool.Seen(input));
    Counted(input);
    if offset > input.readable { return PeekBad; }
    var view := input.ReadableView();
    label Viewed:
    var result := parser.Unpack(view[offset..]);
    if !result.Ok? {
      p := if result.NeedMore? then PeekMore else PeekBad;
    } else {
      var found, name, argc := ExtractCommandInfo(result.value);
      p := if found then Command(result.consumed, name, argc) else PeekBad;
    }
    input.Untouched@Viewed();
  }

  lemma Counted(input: IoBuffer)
    requires input.Valid()
    ensures input.readable == |input.Contents()|
  {
  }

  /** `nextReplyFrame`: a complete reply leaves the input as slices; an incomplete or broken one stays. */
  method NextReplyFrame(parser: RespParser, input: IoBuffer) returns (result: Parsed<Value>, reply: BufferChain)
    requires parser.Valid() && input.Valid()
    modifies parser, input, input.pool`slices, input.pool`free, input.blocks
    ensures parser.Valid() && input.Valid() && fresh(reply) && reply.Valid() && reply.Alive(input.pool)
    ensures result == Unpacked(parser.limits, parser.maxFrame, old(input.Contents()))
    ensures ChainText(reply.slices) == old(input.Contents())[..if result.Ok? then result.consumed else 0]
    ensures input.Contents() == old(input.Contents())[if result.Ok? then result.consumed else 0..]
    ensures input.pool.slices == old(input.pool.slices) + SliceSet(reply.slices) && fresh(SliceSet(reply.slices))
    ensures input.pool.Undisturbed(input)
  {
    hide IoBuffer.Contents, IoBuffer.Accurate, BlockPool.Owing, BlockPool.Seen, Kept, Unpacked, ChainText, SliceSet, BufferChain.Alive;
    ghost var start := input.pool.Seen(input);
    var view := input.ReadableView();
    label Viewed:
    result := parser.Unpack(view);
    input.Untouched@Viewed();
    ghost var parsed := input.pool.Seen(input);
    reply := input.SlicePrefix(if result.Ok? then result.consumed else 0);
    KeptTwice(start, parsed, input.pool.Seen(input));
  }

  /** What the scan reports to the rest of the reader's turn. */
  function Trouble(stop: Stop): string {
    match stop
    case Broken => PROTOCOL_ERROR
    case Refused(_, message) => message
    case _ => ""
  }

  /** `done` are the first requests of the scan, `consumed` bytes long, and the scan goes on from there. */
  ghost predicate Scanned(cfg: Config, all: Bytes, done: seq<Request>, consumed: nat) {
    && consumed <= |all| && FrameBytes(done) == all[..consumed] && |done| <= cfg.pipeline
    && Scan(cfg, all, cfg.pipeline).0 == done + Scan(cfg, all[consumed..], cfg.pipeline - |done|).0
    && Scan(cfg, all, cfg.pipeline).1 == Scan(cfg, all[consumed..], cfg.pipeline - |done|).1
  }

  lemma ScanStarts(cfg: Config, all: Bytes)
    ensures Scanned(cfg, all, [], 0)
  {
    assert all[0..] == all && all[..0] == [];
  }

  lemma ScanGoesOn(cfg: Config, all: Bytes, done: seq<Request>, consumed: nat)
    requires Scanned(cfg, all, done, consumed) && |done| < cfg.pipeline
    requires var p := Peek(cfg, all[consumed..]); p.Command? && cfg.rules(p.name, p.argc).Allowed?
    ensures var next := consumed + Peek(cfg, all[consumed..]).consumed;
            next <= |all| && Scanned(cfg, all, done + [Accept(all[consumed..next])], next)
  {
    hide Peek;
    var p := Peek(cfg, all[consumed..]);
    var next := consumed + p.consumed;
    var first := Accept(all[consumed..next]);
    assert all[consumed..][..p.consumed] == all[consumed..next] && all[consumed..][p.consumed..] == all[next..];
    assert (done + [first])[..|done|] == done && all[..consumed] + all[consumed..next] == all[..next];
    var more := Scan(cfg, all[next..], cfg.pipeline - |done| - 1).0;
    assert Scan(cfg, all[consumed..], cfg.pipeline - |done|).0 == [first] + more;
    assert done + ([first] + more) == (done + [first]) + more;
  }

  lemma ScanStops(cfg: Config, all: Bytes, done: seq<Request>, consumed: nat, stop: Stop)
    requires Scanned(cfg, all, done, consumed) && Scan(cfg, all[consumed..], cfg.pipeline - |done|) == ([], stop)
    ensures Scan(cfg, all, cfg.pipeline) == (done, stop)
  {
    hide Scan, FrameBytes;
    var whole := Scan(cfg, all, cfg.pipeline);
    assert done + [] == done;
    assert whole == (whole.0, whole.1);
  }

  /** The scan of a reader's turn; nothing is consumed yet. */
  method ScanBatch(cfg: Config, parser: RespParser, input: IoBuffer)
    returns (parsed: nat, consumed: nat, rejected: nat, error: string, starved: bool)
    requires parser.Valid() && parser.limits == cfg.limits && parser.maxFrame == cfg.maxFrame && input.Valid()
    modifies parser, input`linearized, input`linearizedOffset
    ensures parser.Valid() && input.Valid() && input.Contents() == old(input.Contents())
    ensures var (rs, stop) := Scan(cfg, input.Contents(), cfg.pipeline);
            && parsed == |rs| && consumed == |FrameBytes(rs)| && consumed + rejected <= |input.Contents()|
            && FrameBytes(rs) == input.Contents()[..consumed]
            && error == Trouble(stop) && rejected == (if stop.Refused? then |stop.frame| else 0) && (starved <==> stop.Starved?)
    ensures input.pool.Undisturbed(input)
  {
    hide IoBuffer.Contents, IoBuffer.Accurate, BlockPool.Owing, BlockPool.Seen, Kept, Peek, FrameBytes, Scanned;
    ghost var all := input.Contents();
    ghost var done: seq<Request> := [];
    ghost var stop := OutOfBudget;
    parsed, consumed, rejected, error, starved := 0, 0, 0, "", false;
    ScanStarts(cfg, all);
    Same(input.pool.Seen(input));
    while parsed < cfg.pipeline
      invariant parser.Valid() && input.Valid() && input.Contents() == all
      invariant Kept(old(input.pool.Seen(input)), input.pool.Seen(input))
      invariant parsed == |done| <= cfg.pipeline && consumed <= |all| && Scanned(cfg, all, done, consumed)
      invariant rejected == 0 && error == "" && !starved && stop == OutOfBudget
      decreases cfg.pipeline - parsed
    {
      ghost var before := input.pool.Seen(input);
      var info := PeekFrame(cfg, parser, input, consumed);
      KeptTwice(old(input.pool.Seen(input)), before, input.pool.Seen(input));
      if info.PeekMore? {
        starved, stop := true, Starved;
        break;
      }
      if info.PeekBad? {
        error, stop := PROTOCOL_ERROR, Broken;
        break;
      }
      var verdict := cfg.rules(info.name, info.argc);
      if !verdict.Allowed? {
        error, rejected := Complaint(verdict), info.consumed;
        stop := Refused(all[consumed..][..info.consumed], error);
        break;
      }
      ScanGoesOn(cfg, all, done, consumed);
      done := done + [Accept(all[consumed..consumed + info.consumed])];
      consumed := consumed + info.consumed;
      parsed := parsed + 1;
    }
    ScanStops(cfg, all, done, consumed, stop);
    ScanLength(cfg, all, done, consumed);
  }

  lemma ScanLength(cfg: Config, all: Bytes, done: seq<Request>, consumed: nat)
    requires Scanned(cfg, all, done, consumed)
    ensures consumed <= |all| && FrameBytes(done) == all[..consumed] && |FrameBytes(done)| == consumed
  {
    hide Scan, FrameBytes;
  }

  /**
   The input side of a reader's turn: the accepted frames leave the buffer as one chain that reads as
   exactly their bytes; a rejected frame is then the first thing in the buffer.
   */
  method TakeBatch(cfg: Config, parser: RespParser, input: IoBuffer)
    returns (batch: BufferChain, parsed: nat, error: string, rejected: nat, starved: bool)
    requires parser.Valid() && parser.limits == cfg.limits && parser.maxFrame == cfg.maxFrame && input.Valid()
    modifies parser, input, input.pool`slices, input.pool`free, input.blocks
    ensures parser.Valid() && input.Valid() && fresh(batch) && batch.Valid() && batch.Alive(input.pool)
    ensures var (rs, stop) := Scan(cfg, old(input.Contents()), cfg.pipeline);
            && parsed == |rs| && ChainText(batch.slices) == FrameBytes(rs)
            && old(input.Contents()) == FrameBytes(rs) + input.Contents()
            && error == Trouble(stop) && rejected == (if stop.Refused? then |stop.frame| else 0) && (starved <==> stop.Starved?)
            && rejected <= |input.Contents()|
    ensures input.pool.slices == old(input.pool.slices) + SliceSet(batch.slices) && fresh(SliceSet(batch.slices))
    ensures input.pool.Undisturbed(input)
  {
    hide IoBuffer.Contents, IoBuffer.Accurate, BlockPool.Owing, BlockPool.Seen, Kept, FrameBytes, Scan, ChainText, Trouble;
    hide BufferChain.Alive, SliceSet;
    ghost var start := input.pool.Seen(input);
    var consumed;
    parsed, consumed, rejected, error, starved := ScanBatch(cfg, parser, input);
    ghost var scanned := input.pool.Seen(input);
    batch := input.SlicePrefix(consumed);
    KeptTwice(start, scanned, input.pool.Seen(input));
  }

  /** The slices of a chain as `writeAll` sees them. */
  function Texts(q: seq<BufferSlice>): (r: seq<Bytes>)
    reads set i | 0 <= i < |q| :: q[i].block.data
    ensures |r| == |q| && forall i :: 0 <= i < |q| ==> r[i] == q[i].Text()
  {
    seq(|q|, i requires 0 <= i < |q| reads set k | 0 <= k < |q| :: q[k].block.data => q[i].Text())
  }

  /** Writing a chain slice by slice writes the chain's bytes. */
  lemma {:induction false} ChainOnTheWire(q: seq<BufferSlice>)
    ensures CoSockets.Flatten(Texts(q)) == ChainText(q)
  {
    hide BufferSlice.Text;
    if q != [] {
      var init, last := q[..|q| - 1], q[|q| - 1];
      ChainOnTheWire(init);
      assert Texts(q) == Texts(init) + [last.Text()];
      CoSockets.FlattenAppend(Texts(init), last.Text());
    }
  }
}
