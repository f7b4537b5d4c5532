/**
 Framing of the client stream: the growing-arena `unpack`, `peekFrame`, the batch scan at the
 head of `ClientSession::readerLoop`, and the reading of a whole stream as a list of requests
 that none of the three may contradict.
 */
module Framing {
  import opened Resp

  const PROTOCOL_ERROR := "ERR proxy protocol error"

  datatype Verdict = Allowed | UnknownCommand | ForbiddenCommand | WrongArity

  function Complaint(v: Verdict): (message: string)
    ensures message != ""
  {
    match v
    case UnknownCommand => "ERR proxy rejected unknown command"
    case ForbiddenCommand => "ERR proxy rejected command"
    case _ => "ERR wrong number of arguments"
  }

  /** `rules` stands for the command table: a verdict for each command name and argument count. */
  datatype Config = Config(limits: Limits, maxFrame: nat, pipeline: nat, rules: (Bytes, nat) -> Verdict) {
    /** The positivity checks of the configuration loader, and the width of the batch counter. */
    predicate Valid() { 0 < maxFrame && 0 < pipeline < 0x1_0000_0000 }
  }

  function Min(a: nat, b: nat): nat { if a < b then a else b }

  function Max(a: nat, b: nat): nat { if a < b then b else a }

  // ----- unpack -----

  function Window(maxFrame: nat, s: Bytes): Bytes { s[..Min(maxFrame, |s|)] }

  function MaxSlots(w: Bytes): nat { |w| / 3 + 1 }

  /** The answer of `unpack`, as a function of its input alone. */
  function Unpacked(lim: Limits, maxFrame: nat, s: Bytes): (r: Parsed<Value>)
    ensures !r.NoMemory?
    ensures r.Ok? ==> 0 < r.consumed <= |s|
  {
    var w := Window(maxFrame, s);
    match UnpackOne(w, Slots(MaxSlots(w)), lim)
    case Ok(c, v, u) => Ok(c, v, u)
    case Malformed => Malformed
    case _ => if |w| >= maxFrame then Malformed else NeedMore
  }

  lemma UnpackGrow(w: Bytes, lim: Limits, b: Budget, b': Budget)
    requires b.AtMost(b') && !UnpackOne(w, b, lim).NoMemory?
    ensures UnpackOne(w, b', lim) == UnpackOne(w, b, lim)
  {
    ParseValueGrow(w, lim, b.Spend(1), b'.Spend(1), 1);
  }

  lemma UnpackExtend(w: Bytes, t: Bytes, lim: Limits, b: Budget)
    requires !UnpackOne(w, b, lim).NeedMore?
    ensures UnpackOne(w + t, b, lim) == UnpackOne(w, b, lim)
  {
    if b.Fits(1) { ParseValueExtend(w, t, lim, b.Spend(1), 1); }
  }

  /**
   The bounded arena is a refinement of an unbounded one: a frame is found exactly when the first
   `maxFrame` bytes contain one, with the same length and value; and the two disagree only by
   reporting a malformed input as still incomplete, exactly when the arena of the final size runs out.
   */
  lemma UnpackRefinesUnbounded(lim: Limits, maxFrame: nat, s: Bytes)
    ensures var w := Window(maxFrame, s);
            var full, got := UnpackOne(w, Unlimited, lim), Unpacked(lim, maxFrame, s);
            && (got.Ok? <==> full.Ok?)
            && (got.Ok? ==> got == full)
            && (|w| >= maxFrame && !full.Ok? ==> got.Malformed?)
            && (|w| < maxFrame && full.NeedMore? ==> got.NeedMore?)
            && (|w| < maxFrame && full.Malformed? ==>
                  got == if UnpackOne(w, Slots(MaxSlots(w)), lim).NoMemory? then NeedMore else Malformed)
  {
    var w := Window(maxFrame, s);
    var limited := UnpackOne(w, Slots(MaxSlots(w)), lim);
    if UnpackOne(w, Unlimited, lim).Ok? {
      ParseValueEnough(w, lim, Slots(MaxSlots(w) - 1), 1);
    }
    if !limited.NoMemory? { UnpackGrow(w, lim, Slots(MaxSlots(w)), Unlimited); }
    UnpackUnlimited(w, lim);
  }

  lemma {:induction false} NoMemoryNeedsSlots(s: Bytes, lim: Limits, depth: nat)
    ensures !ParseValue(s, lim, Unlimited, depth).NoMemory?
    decreases |s|, 0
  {
    hide ReadHead;
    var h := ReadHead(s, lim, depth);
    if h.Elements? { NoMemoryNeedsSlotsAll(s[h.length..], h.count, lim, depth + 1); }
  }

  lemma {:induction false} NoMemoryNeedsSlotsAll(s: Bytes, n: nat, lim: Limits, depth: nat)
    ensures !ParseElems(s, n, lim, Unlimited, depth).NoMemory?
    decreases |s|, 1
  {
    hide ReadHead;
    if n > 0 {
      NoMemoryNeedsSlots(s, lim, depth);
      var r := ParseValue(s, lim, Unlimited, depth);
      if r.Ok? { NoMemoryNeedsSlotsAll(s[r.consumed..], n - 1, lim, depth); }
    }
  }

  lemma UnpackUnlimited(w: Bytes, lim: Limits)
    ensures !UnpackOne(w, Unlimited, lim).NoMemory?
  {
    NoMemoryNeedsSlots(w, lim, 1);
  }

  lemma NineElements(lim: Limits)
    requires lim == Limits(100, 100, 8)
    ensures ReadHead([STAR, NINE, CR, LF, 33], lim, 1) == Elements(4, 9)
    ensures ReadHead([33], lim, 2) == Scalar(Malformed)
  {
    var s := [STAR, NINE, CR, LF, 33];
    assert s[1..][1..] == [CR, LF, 33];
    assert FindLine([CR, LF, 33]) == Some(0);
    assert s[1..2] == [NINE];
    assert Digits([NINE]) == 9;
  }

  /** The disagreement is real: a nine-element array whose first element is malformed. */
  lemma MalformedHiddenByArena()
    ensures var s, lim := [STAR, NINE, CR, LF, 33], Limits(100, 100, 8);
            UnpackOne(s, Unlimited, lim).Malformed? && Unpacked(lim, 1000, s).NeedMore?
  {
    hide ReadHead;
    var s, lim := [STAR, NINE, CR, LF, 33], Limits(100, 100, 8);
    NineElements(lim);
    assert s[4..] == [33];
    assert ParseValue([33], lim, Unlimited, 2).Malformed?;
    assert ParseElems(s[4..], 9, lim, Unlimited, 2).Malformed?;
    assert ParseValue(s, lim, Unlimited, 1).Malformed?;
    assert Window(1000, s) == s;
  }

  /** A verdict on a frame is final: later bytes cannot change it. */
  lemma UnpackedExtend(lim: Limits, maxFrame: nat, s: Bytes, t: Bytes)
    requires !Unpacked(lim, maxFrame, s).NeedMore?
    ensures Unpacked(lim, maxFrame, s + t) == Unpacked(lim, maxFrame, s)
  {
    var w, w' := Window(maxFrame, s), Window(maxFrame, s + t);
    if |s| >= maxFrame {
      assert w' == w;
    } else {
      var more := w'[|w|..];
      assert w' == w + more;
      UnpackExtend(w, more, lim, Slots(MaxSlots(w)));
      UnpackGrow(w', lim, Slots(MaxSlots(w)), Slots(MaxSlots(w')));
    }
  }

  class RespParser {
    const limits: Limits
    const maxFrame: nat
    var scratch: seq<Value>
    ghost var largest: nat  // the largest slot bound of any input seen so far

    constructor (limits: Limits, maxFrame: nat)
      ensures this.limits == limits && this.maxFrame == maxFrame
      ensures Valid() && scratch == [] && largest == 0
    {
      this.limits, this.maxFrame := limits, maxFrame;
      scratch, largest := [], 0;
    }

    /** Whatever element counts the inputs declared, the arena stays within that bound. */
    ghost predicate Valid()
      reads this
    {
      |scratch| <= largest
    }

    /** `std::vector::resize`, only ever to a larger size. */
    method Resize(n: nat)
      requires |scratch| <= n <= largest
      modifies this`scratch
      ensures |scratch| == n
    {
      scratch := scratch + seq(n - |scratch|, _ => Null);
    }

    /** The retry loop; the answer does not depend on the scratch left by earlier calls. */
    method Unpack(input: Bytes) returns (result: Parsed<Value>)
      requires Valid()
      modifies this
      ensures Valid()
      ensures result == Unpacked(limits, maxFrame, input)
      ensures largest == Max(old(largest), MaxSlots(Window(maxFrame, input)))
      ensures old(|scratch|) <= |scratch| <= Max(old(|scratch|), MaxSlots(Window(maxFrame, input)))
    {
      var w := Window(maxFrame, input);
      var maxSlots := MaxSlots(w);
      largest := Max(largest, maxSlots);
      if scratch == [] { Resize(Min(16, maxSlots)); }
      while true
        invariant 0 < |scratch| && old(|scratch|) <= |scratch| <= Max(old(|scratch|), maxSlots) <= largest
        invariant largest == Max(old(largest), maxSlots)
        decreases maxSlots - |scratch|
      {
        var slots := Min(|scratch|, maxSlots);
        result := UnpackOne(w, Slots(slots), limits);
        if result.NoMemory? {
          if slots < maxSlots {
            Resize(slots + Min(slots, maxSlots - slots));
            continue;
          }
          result := NeedMore;
        } else {
          UnpackGrow(w, limits, Slots(slots), Slots(maxSlots));
        }
        if result.NeedMore? && |w| >= maxFrame {
          result := Malformed;
        }
        return;
      }
    }
  }

  // ----- peekFrame -----

  datatype Peeked = Command(consumed: nat, name: Bytes, argc: nat) | PeekMore | PeekBad

  /** `extractCommandInfo`: a non-empty array of bulk strings. */
  predicate IsCommand(v: Value) {
    v.Array? && v.elems != [] && forall i :: 0 <= i < |v.elems| ==> v.elems[i].Bulk?
  }

  function Peek(cfg: Config, s: Bytes): (r: Peeked)
    ensures r.Command? ==> 0 < r.consumed <= |s| && 0 < r.argc
  {
    match Unpacked(cfg.limits, cfg.maxFrame, s)
    case Ok(c, v, _) => if IsCommand(v) then Command(c, v.elems[0].text, |v.elems|) else PeekBad
    case NeedMore => PeekMore
    case _ => PeekBad
  }

  lemma PeekExtend(cfg: Config, s: Bytes, t: Bytes)
    requires !Peek(cfg, s).PeekMore?
    ensures Peek(cfg, s + t) == Peek(cfg, s)
  {
    UnpackedExtend(cfg.limits, cfg.maxFrame, s, t);
  }

  lemma PeekEmpty(cfg: Config)
    requires cfg.Valid()
    ensures Peek(cfg, []).PeekMore?
  {
    assert Window(cfg.maxFrame, []) == [];
    assert ReadHead([], cfg.limits, 1) == Scalar(NeedMore);
  }

  // ----- a stream as a list of requests -----

  datatype Request =
    | Accept(frame: Bytes)
    | Reject(frame: Bytes, message: string)
    | Fatal(message: string)

  function Judge(cfg: Config, frame: Bytes, p: Peeked): Request
    requires p.Command?
  {
    var verdict := cfg.rules(p.name, p.argc);
    if verdict.Allowed? then Accept(frame) else Reject(frame, Complaint(verdict))
  }

  /** What a client asked for, read off its whole byte stream; `eof` says the stream is closed. */
  function Classify(cfg: Config, s: Bytes, eof: bool): seq<Request>
    decreases |s|
  {
    match Peek(cfg, s)
    case PeekMore => if eof && s != [] then [Fatal(PROTOCOL_ERROR)] else []
    case PeekBad => [Fatal(PROTOCOL_ERROR)]
    case Command(c, name, argc) =>
      [Judge(cfg, s[..c], Command(c, name, argc))] + Classify(cfg, s[c..], eof)
  }

  /** The request was read from exactly its own frame. */
  predicate Judged(cfg: Config, r: Request) {
    && !r.Fatal?
    && var p := Peek(cfg, r.frame);
       p.Command? && p.consumed == |r.frame| && r == Judge(cfg, r.frame, p)
  }

  predicate AllJudged(cfg: Config, rs: seq<Request>) {
    forall i :: 0 <= i < |rs| ==> !rs[i].Fatal? && Judged(cfg, rs[i])
  }

  /** The bytes of the listed requests. */
  function FrameBytes(rs: seq<Request>): Bytes {
    if rs == [] then []
    else FrameBytes(rs[..|rs| - 1]) + (if rs[|rs| - 1].Fatal? then [] else rs[|rs| - 1].frame)
  }

  lemma {:induction false} FrameBytesConcat(a: seq<Request>, b: seq<Request>)
    ensures FrameBytes(a + b) == FrameBytes(a) + FrameBytes(b)
  {
    if b == [] {
      assert a + b == a;
    } else {
      var init, last := b[..|b| - 1], b[|b| - 1];
      FrameBytesConcat(a, init);
      assert (a + b)[..|a + b| - 1] == a + init && (a + b)[|a + b| - 1] == last;
    }
  }

  lemma ClassifyOne(cfg: Config, r: Request, x: Bytes, eof: bool)
    requires Judged(cfg, r)
    ensures Classify(cfg, r.frame + x, eof) == [r] + Classify(cfg, x, eof)
  {
    hide Peek;
    PeekExtend(cfg, r.frame, x);
    assert (r.frame + x)[..|r.frame|] == r.frame;
    assert (r.frame + x)[|r.frame|..] == x;
  }

  /** Requests already taken off the front of a stream stay what they are, whatever follows. */
  lemma {:induction false} ClassifyTaken(cfg: Config, rs: seq<Request>, x: Bytes, eof: bool)
    requires AllJudged(cfg, rs)
    ensures Classify(cfg, FrameBytes(rs) + x, eof) == rs + Classify(cfg, x, eof)
  {
    hide Classify, Judged;
    if rs == [] {
      assert FrameBytes(rs) + x == x;
    } else {
      var init, last := rs[..|rs| - 1], rs[|rs| - 1];
      ClassifyTaken(cfg, init, last.frame + x, eof);
      assert FrameBytes(rs) + x == FrameBytes(init) + (last.frame + x);
      ClassifyOne(cfg, last, x, eof);
      assert rs == init + [last];
    }
  }

  predicate EndsFatal(rs: seq<Request>) { rs != [] && rs[|rs| - 1].Fatal? }

  /** More input only adds requests, and adds none after a malformed one. */
  lemma {:induction false} ClassifyExtend(cfg: Config, s: Bytes, t: Bytes, eof: bool)
    ensures Classify(cfg, s, false) <= Classify(cfg, s + t, eof)
    ensures EndsFatal(Classify(cfg, s, false)) ==> Classify(cfg, s + t, eof) == Classify(cfg, s, false)
    decreases |s|
  {
    hide Peek;
    var p := Peek(cfg, s);
    if !p.PeekMore? { PeekExtend(cfg, s, t); }
    if p.Command? {
      assert (s + t)[..p.consumed] == s[..p.consumed];
      assert (s + t)[p.consumed..] == s[p.consumed..] + t;
      ClassifyExtend(cfg, s[p.consumed..], t, eof);
    }
  }

  /** Only the last request of a stream can be fatal. */
  lemma {:induction false} FatalIsLast(cfg: Config, s: Bytes, eof: bool, i: nat)
    requires i < |Classify(cfg, s, eof)| && Classify(cfg, s, eof)[i].Fatal?
    ensures i == |Classify(cfg, s, eof)| - 1
    decreases |s|
  {
    hide Peek;
    var p := Peek(cfg, s);
    if p.Command? && i > 0 { FatalIsLast(cfg, s[p.consumed..], eof, i - 1); }
  }

  // ----- one pass of the batch scan -----

  datatype Stop =
    | OutOfBudget
    | Starved
    | Refused(frame: Bytes, message: string)
    | Broken

  /** Accepted requests at the head of `s`, at most `budget` of them, and why the scan stopped. */
  function Scan(cfg: Config, s: Bytes, budget: nat): (r: (seq<Request>, Stop))
    decreases budget
  {
    if budget == 0 then ([], OutOfBudget)
    else match Peek(cfg, s)
      case PeekMore => ([], Starved)
      case PeekBad => ([], Broken)
      case Command(c, name, argc) =>
        match Judge(cfg, s[..c], Command(c, name, argc))
        case Reject(frame, message) => ([], Refused(frame, message))
        case first =>
          var (rs, stop) := Scan(cfg, s[c..], budget - 1);
          ([first] + rs, stop)
  }

  predicate StopsAt(cfg: Config, rest: Bytes, stop: Stop) {
    match stop
    case OutOfBudget => true
    case Starved => Peek(cfg, rest).PeekMore?
    case Broken => Peek(cfg, rest).PeekBad?
    case Refused(frame, message) =>
      frame <= rest && Judged(cfg, Reject(frame, message)) && message != ""
  }

  lemma {:induction false} FrameIsJudged(cfg: Config, s: Bytes)
    requires Peek(cfg, s).Command?
    ensures var p := Peek(cfg, s); Judged(cfg, Judge(cfg, s[..p.consumed], p))
  {
    var c := Peek(cfg, s).consumed;
    var f := s[..c];
    assert s == f + s[c..];
    // Were the frame alone still incomplete, the arena of the whole input could not complete it.
    PeekFrameAlone(cfg, s);
  }

  /** A frame found in a longer input is found, alike, when it stands alone. */
  lemma PeekFrameAlone(cfg: Config, s: Bytes)
    requires Peek(cfg, s).Command?
    ensures Peek(cfg, s[..Peek(cfg, s).consumed]) == Peek(cfg, s)
  {
    var c := Peek(cfg, s).consumed;
    var w := Window(cfg.maxFrame, s);
    var f := s[..c];
    UnpackRefinesUnbounded(cfg.limits, cfg.maxFrame, s);
    UnpackRefinesUnbounded(cfg.limits, cfg.maxFrame, f);
    assert w[..c] == f && Window(cfg.maxFrame, f) == f;
    UnpackAlone(w, cfg.limits);
  }

  lemma UnpackAlone(w: Bytes, lim: Limits)
    requires UnpackOne(w, Unlimited, lim).Ok?
    ensures UnpackOne(w[..UnpackOne(w, Unlimited, lim).consumed], Unlimited, lim) == UnpackOne(w, Unlimited, lim)
  {
    ParseValueAlone(w, lim, 1);
  }

  lemma {:induction false} FindLineAlone(s: Bytes, n: nat)
    requires FindLine(s).Some? && FindLine(s).value + 2 <= n <= |s|
    ensures FindLine(s[..n]) == FindLine(s)
    decreases |s|
  {
    if !(s[0] == CR && s[1] == LF) {
      assert s[..n][1..] == s[1..][..n - 1];
      FindLineAlone(s[1..], n - 1);
    }
  }

  lemma ReadHeadAlone(s: Bytes, n: nat, lim: Limits, depth: nat)
    requires n <= |s|
    requires var h := ReadHead(s, lim, depth);
             (h.Scalar? && h.result.Ok? && h.result.consumed <= n) || (h.Elements? && h.length <= n)
    ensures ReadHead(s[..n], lim, depth) == ReadHead(s, lim, depth)
  {
    hide ReadLine, FindLine;
    var i := FindLine(s[1..]).value;
    var cut := s[..n];
    assert cut[1..] == s[1..][..n - 1];
    FindLineAlone(s[1..], n - 1);
    assert cut[1..i + 1] == s[1..i + 1];
    assert cut[i + 3..] == s[i + 3..][..n - (i + 3)];
    ReadLineAlone(s[0], s[1..i + 1], i + 3, s[i + 3..], n - (i + 3), lim, depth);
  }

  lemma ReadLineAlone(kind: Byte, line: Bytes, length: nat, rest: Bytes, n: nat, lim: Limits, depth: nat)
    requires n <= |rest|
    requires var h := ReadLine(kind, line, length, rest, lim, depth);
             (h.Scalar? && h.result.Ok? && h.result.consumed <= length + n) || h.Elements?
    ensures ReadLine(kind, line, length, rest[..n], lim, depth) == ReadLine(kind, line, length, rest, lim, depth)
  {
    hide ParseNumber;
    var number := ParseNumber(line);
    if number.Some? && 0 <= number.value <= n {
      assert rest[..n][..number.value] == rest[..number.value];
    }
  }

  lemma {:induction false} ParseValueAlone(s: Bytes, lim: Limits, depth: nat)
    requires ParseValue(s, lim, Unlimited, depth).Ok?
    ensures forall n :: ParseValue(s, lim, Unlimited, depth).consumed <= n <= |s| ==>
              ParseValue(s[..n], lim, Unlimited, depth) == ParseValue(s, lim, Unlimited, depth)
    decreases |s|, 0
  {
    hide ReadHead;
    var r := ParseValue(s, lim, Unlimited, depth);
    forall n | r.consumed <= n <= |s|
      ensures ParseValue(s[..n], lim, Unlimited, depth) == r
    {
      var h := ReadHead(s, lim, depth);
      ReadHeadAlone(s, n, lim, depth);
      if h.Elements? {
        ParseElemsAlone(s[h.length..], h.count, lim, depth + 1);
        assert s[..n][h.length..] == s[h.length..][..n - h.length];
      }
    }
  }

  lemma {:induction false} ParseElemsAlone(s: Bytes, k: nat, lim: Limits, depth: nat)
    requires ParseElems(s, k, lim, Unlimited, depth).Ok?
    ensures forall n :: ParseElems(s, k, lim, Unlimited, depth).consumed <= n <= |s| ==>
              ParseElems(s[..n], k, lim, Unlimited, depth) == ParseElems(s, k, lim, Unlimited, depth)
    decreases |s|, 1
  {
    hide ReadHead;
    var r := ParseElems(s, k, lim, Unlimited, depth);
    if k > 0 {
      var v := ParseValue(s, lim, Unlimited, depth);
      ParseValueAlone(s, lim, depth);
      ParseElemsAlone(s[v.consumed..], k - 1, lim, depth);
      forall n | r.consumed <= n <= |s|
        ensures ParseElems(s[..n], k, lim, Unlimited, depth) == r
      {
        assert s[..n][v.consumed..] == s[v.consumed..][..n - v.consumed];
      }
    }
  }

  /** The scan takes whole accepted frames off the front, and its reason holds of what is left. */
  ghost predicate ScansTo(cfg: Config, s: Bytes, budget: nat, rs: seq<Request>, stop: Stop) {
    && |rs| <= budget
    && AllJudged(cfg, rs)
    && (forall i :: 0 <= i < |rs| ==> rs[i].Accept?)
    && FrameBytes(rs) <= s
    && StopsAt(cfg, s[|FrameBytes(rs)|..], stop)
    && (stop.OutOfBudget? ==> |rs| == budget)
  }

  lemma {:induction false} ScanSound(cfg: Config, s: Bytes, budget: nat)
    ensures ScansTo(cfg, s, budget, Scan(cfg, s, budget).0, Scan(cfg, s, budget).1)
    decreases budget
  {
    hide Peek;
    assert s[0..] == s;
    var p := Peek(cfg, s);
    if budget > 0 && p.Command? {
      var first := Judge(cfg, s[..p.consumed], p);
      FrameIsJudged(cfg, s);
      if first.Accept? {
        var (rs, stop) := Scan(cfg, s[p.consumed..], budget - 1);
        ScanSound(cfg, s[p.consumed..], budget - 1);
        ScanPrepend(cfg, s, budget, first, rs, stop);
      }
    }
  }

  lemma ScanPrepend(cfg: Config, s: Bytes, budget: nat, first: Request, rs: seq<Request>, stop: Stop)
    requires 0 < budget && first.Accept? && Judged(cfg, first) && first.frame <= s
    requires ScansTo(cfg, s[|first.frame|..], budget - 1, rs, stop)
    ensures ScansTo(cfg, s, budget, [first] + rs, stop)
  {
    hide Judged, StopsAt;
    FrameBytesConcat([first], rs);
    assert FrameBytes([first]) == first.frame by { assert [first][..0] == []; }
    var rest, n := s[|first.frame|..], |FrameBytes(rs)|;
    assert s[|first.frame| + n..] == rest[n..];
    assert s == first.frame + rest;
  }

  /** A frame cut short shows nothing. */
  lemma CutFrame(cfg: Config, r: Request, n: nat)
    requires Judged(cfg, r) && n < |r.frame|
    ensures Classify(cfg, r.frame[..n], false) == []
  {
    hide Peek;
    var cut := r.frame[..n];
    assert r.frame == cut + r.frame[n..];
    if !Peek(cfg, cut).PeekMore? { PeekExtend(cfg, cut, r.frame[n..]); }
  }

  /**
   Any cut of a run of frames shows its reader the first whole frames and then nothing: a batch
   that is only partly written gives Redis a prefix of its commands.
   */
  lemma {:induction false} CutBetweenFrames(cfg: Config, rs: seq<Request>, n: nat) returns (k: nat)
    requires AllJudged(cfg, rs) && n < |FrameBytes(rs)|
    ensures k < |rs| && |FrameBytes(rs[..k])| <= n < |FrameBytes(rs[..k + 1])|
    ensures Classify(cfg, FrameBytes(rs)[..n], false) == rs[..k]
  {
    hide Classify, Judged;
    var init, last := rs[..|rs| - 1], rs[|rs| - 1];
    var head := FrameBytes(init);
    assert rs[..|init| + 1] == rs;
    if n < |head| {
      k := CutBetweenFrames(cfg, init, n);
      assert FrameBytes(rs)[..n] == head[..n];
      assert rs[..k] == init[..k] && rs[..k + 1] == init[..k + 1];
    } else {
      k := |init|;
      var cut := last.frame[..n - |head|];
      assert FrameBytes(rs)[..n] == head + cut;
      ClassifyTaken(cfg, init, cut, false);
      CutFrame(cfg, last, n - |head|);
      assert init + [] == init;
    }
  }
}
