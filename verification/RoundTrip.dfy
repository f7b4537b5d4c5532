/**
 The encoder that the parser of `Resp` inverts, and what follows for clients: every command within
 the limits, written as the RESP specification says, is recognised for what it is, whatever follows it.
 */
module RoundTrip {
  import opened Resp
  import opened Framing

  const CRLF: Bytes := [CR, LF]

  function Decimal(n: nat): (r: Bytes)
    ensures r != [] && AllDigits(r) && Digits(r) == n
  {
    var digit := [ZERO + (n % 10) as Byte];
    if n < 10 then digit else Decimal(n / 10) + digit
  }

  function Number(n: int): Bytes { if n < 0 then [MINUS] + Decimal(0 - n) else Decimal(n) }

  function Encode(v: Value): Bytes {
    match v
    case Simple(text) => [PLUS] + text + CRLF
    case Error(text) => [MINUS] + text + CRLF
    case Integer(n) => [COLON] + Number(n) + CRLF
    case Bulk(text) => [DOLLAR] + Decimal(|text|) + CRLF + (text + CRLF)
    case Null => [DOLLAR] + Number(-1) + CRLF
    case Array(elems) => [STAR] + Decimal(|elems|) + CRLF + EncodeAll(elems)
  }

  function EncodeAll(vs: seq<Value>): Bytes {
    if vs == [] then [] else Encode(vs[0]) + EncodeAll(vs[1..])
  }

  /** The value stays within the limits at this depth, and its lines within their alphabet. */
  predicate Within(v: Value, lim: Limits, depth: nat) {
    match v
    case Simple(text) => Clean(text)
    case Error(text) => Clean(text)
    case Bulk(text) => |text| <= lim.maxBulk
    case Array(elems) => |elems| <= lim.maxArray && depth <= lim.maxDepth && AllWithin(elems, lim, depth + 1)
    case _ => true
  }

  predicate AllWithin(vs: seq<Value>, lim: Limits, depth: nat) {
    vs == [] || (Within(vs[0], lim, depth) && AllWithin(vs[1..], lim, depth))
  }

  /** The arena slots below a value. */
  function Below(v: Value): nat { if v.Array? then |v.elems| + BelowAll(v.elems) else 0 }

  function BelowAll(vs: seq<Value>): nat { if vs == [] then 0 else Below(vs[0]) + BelowAll(vs[1..]) }

  lemma {:induction false} FindsLine(line: Bytes, rest: Bytes)
    requires CR !in line
    ensures FindLine(line + CRLF + rest) == Some(|line|)
  {
    var s := line + CRLF + rest;
    if line != [] {
      assert s[1..] == line[1..] + CRLF + rest;
      assert s[0] == line[0] && line[0] in line;
      FindsLine(line[1..], rest);
    }
  }

  /** The first line of an encoded value is read back whole. */
  lemma HeadLine(kind: Byte, line: Bytes, rest: Bytes, lim: Limits, depth: nat)
    requires kind in {PLUS, MINUS, COLON, DOLLAR, STAR} && CR !in line
    ensures ReadHead([kind] + line + CRLF + rest, lim, depth) == ReadLine(kind, line, |line| + 3, rest, lim, depth)
  {
    hide ReadLine, FindLine;
    var s := [kind] + line + CRLF + rest;
    FindsLine(line, rest);
    assert s[1..] == line + CRLF + rest;
    assert s[1..|line| + 1] == line && s[|line| + 3..] == rest;
  }

  lemma ReadsNumber(n: int)
    ensures CR !in Number(n) && ParseNumber(Number(n)) == Some(n)
  {
    hide Decimal;
    if n < 0 {
      assert Number(n)[1..] == Decimal(0 - n);
      assert !IsDigit(Number(n)[0]);
    }
  }

  lemma {:induction false} ParsesEncoded(v: Value, rest: Bytes, lim: Limits, depth: nat)
    requires Within(v, lim, depth)
    ensures ParseValue(Encode(v) + rest, lim, Unlimited, depth) == Ok(|Encode(v)|, v, Below(v))
    decreases v
  {
    hide FindLine, ParseNumber, Decimal, Number, ReadHead;
    match v
    case Simple(text) =>
      HeadLine(PLUS, text, rest, lim, depth);
      assert Encode(v) + rest == [PLUS] + text + CRLF + rest;
    case Error(text) =>
      HeadLine(MINUS, text, rest, lim, depth);
      assert Encode(v) + rest == [MINUS] + text + CRLF + rest;
    case Integer(n) =>
      ReadsNumber(n);
      HeadLine(COLON, Number(n), rest, lim, depth);
      assert Encode(v) + rest == [COLON] + Number(n) + CRLF + rest;
    case Null =>
      ReadsNumber(-1);
      HeadLine(DOLLAR, Number(-1), rest, lim, depth);
      assert Encode(v) + rest == [DOLLAR] + Number(-1) + CRLF + rest;
    case Bulk(text) =>
      BulkLine(text, rest, lim, depth);
    case Array(elems) =>
      ArrayLine(elems, rest, lim, depth);
      ParsesAll(elems, rest, lim, depth + 1);
  }

  lemma BulkLine(text: Bytes, rest: Bytes, lim: Limits, depth: nat)
    requires |text| <= lim.maxBulk
    ensures ReadHead(Encode(Bulk(text)) + rest, lim, depth) == Scalar(Ok(|Encode(Bulk(text))|, Bulk(text), 0))
  {
    hide FindLine, ParseNumber, ReadHead;
    var line, tail := Decimal(|text|), text + CRLF + rest;
    ReadsNumber(|text|);
    HeadLine(DOLLAR, line, tail, lim, depth);
    assert Encode(Bulk(text)) + rest == [DOLLAR] + line + CRLF + tail;
    assert tail[..|text|] == text && tail[|text|] == CR && tail[|text| + 1] == LF;
  }

  lemma ArrayLine(elems: seq<Value>, rest: Bytes, lim: Limits, depth: nat)
    requires |elems| <= lim.maxArray && depth <= lim.maxDepth
    ensures var s, head := Encode(Array(elems)) + rest, |Decimal(|elems|)| + 3;
            && ReadHead(s, lim, depth) == Elements(head, |elems|)
            && |Encode(Array(elems))| == head + |EncodeAll(elems)| && s[head..] == EncodeAll(elems) + rest
  {
    hide FindLine, ParseNumber, ReadHead, EncodeAll;
    var line, tail := Decimal(|elems|), EncodeAll(elems) + rest;
    ReadsNumber(|elems|);
    HeadLine(STAR, line, tail, lim, depth);
    assert Encode(Array(elems)) + rest == [STAR] + line + CRLF + tail;
  }

  lemma {:induction false} ParsesAll(vs: seq<Value>, rest: Bytes, lim: Limits, depth: nat)
    requires AllWithin(vs, lim, depth)
    ensures ParseElems(EncodeAll(vs) + rest, |vs|, lim, Unlimited, depth) == Ok(|EncodeAll(vs)|, vs, BelowAll(vs))
    decreases vs
  {
    hide ParseValue, Encode, Below, Within;
    if vs != [] {
      var first, more := Encode(vs[0]), EncodeAll(vs[1..]);
      assert EncodeAll(vs) + rest == first + (more + rest);
      ParsesEncoded(vs[0], more + rest, lim, depth);
      ParsesAll(vs[1..], rest, lim, depth);
      assert (EncodeAll(vs) + rest)[|first|..] == more + rest;
      assert vs == [vs[0]] + vs[1..];
    }
  }

  // ----- commands -----

  function Bulks(args: seq<Bytes>): (r: seq<Value>)
    ensures |r| == |args| && forall i :: 0 <= i < |args| ==> r[i] == Bulk(args[i])
  {
    seq(|args|, i requires 0 <= i < |args| => Bulk(args[i]))
  }

  /** A command as a client sends it. */
  function Frame(args: seq<Bytes>): Bytes { Encode(Array(Bulks(args))) }

  predicate WithinLimits(cfg: Config, args: seq<Bytes>) {
    && args != [] && |args| <= cfg.limits.maxArray && 1 <= cfg.limits.maxDepth
    && forall i :: 0 <= i < |args| ==> |args[i]| <= cfg.limits.maxBulk
  }

  lemma {:induction false} BulksWithin(vs: seq<Value>, lim: Limits, depth: nat)
    requires forall i :: 0 <= i < |vs| ==> vs[i].Bulk? && |vs[i].text| <= lim.maxBulk
    ensures AllWithin(vs, lim, depth)
  {
    if vs != [] { BulksWithin(vs[1..], lim, depth); }
  }

  lemma FrameUnpacks(cfg: Config, args: seq<Bytes>, rest: Bytes)
    requires WithinLimits(cfg, args)
    ensures var r := UnpackOne(Frame(args) + rest, Unlimited, cfg.limits);
            r.Ok? && r.consumed == |Frame(args)| && r.value == Array(Bulks(args))
  {
    hide Encode, ParseValue;
    BulksWithin(Bulks(args), cfg.limits, 2);
    ParsesEncoded(Array(Bulks(args)), rest, cfg.limits, 1);
  }

  /**
   A command within the limits is recognised, with its name, its argument count and its length, if and
   only if its frame fits the frame limit; a longer one is refused outright.  What follows does not matter.
   */
  lemma CommandRecognised(cfg: Config, args: seq<Bytes>, rest: Bytes)
    requires WithinLimits(cfg, args)
    ensures Peek(cfg, Frame(args) + rest)
            == if |Frame(args)| <= cfg.maxFrame then Command(|Frame(args)|, args[0], |args|) else PeekBad
  {
    hide UnpackOne, Encode, Frame, Unpacked;
    var f := Frame(args);
    var w := Window(cfg.maxFrame, f + rest);
    UnpackRefinesUnbounded(cfg.limits, cfg.maxFrame, f + rest);
    if |f| <= cfg.maxFrame {
      assert w == f + w[|f|..];
      FrameUnpacks(cfg, args, w[|f|..]);
    } else {
      assert w == f[..cfg.maxFrame] && f == w + f[cfg.maxFrame..] && f + [] == f;
      FrameUnpacks(cfg, args, []);
      if UnpackOne(w, Unlimited, cfg.limits).Ok? {
        UnpackExtend(w, f[cfg.maxFrame..], cfg.limits, Unlimited);
        Shorter(w, cfg.limits);
      }
    }
  }

  lemma Shorter(w: Bytes, lim: Limits)
    ensures UnpackOne(w, Unlimited, lim).Ok? ==> UnpackOne(w, Unlimited, lim).consumed <= |w|
  {
  }

  /** The commands of a pipeline, one after the other. */
  function Wire(cmds: seq<seq<Bytes>>): Bytes {
    if cmds == [] then [] else Frame(cmds[0]) + Wire(cmds[1..])
  }

  /** What the command table makes of a command. */
  function Judgement(cfg: Config, args: seq<Bytes>): Request
    requires args != []
  {
    var verdict := cfg.rules(args[0], |args|);
    if verdict.Allowed? then Accept(Frame(args)) else Reject(Frame(args), Complaint(verdict))
  }

  ghost predicate Sendable(cfg: Config, cmds: seq<seq<Bytes>>) {
    forall i :: 0 <= i < |cmds| ==> WithinLimits(cfg, cmds[i]) && |Frame(cmds[i])| <= cfg.maxFrame
  }

  /** A pipeline of commands is read as exactly those commands, in order, one request each. */
  lemma {:induction false} PipelineIsItsCommands(cfg: Config, cmds: seq<seq<Bytes>>, tail: Bytes, eof: bool)
    requires Sendable(cfg, cmds)
    ensures Classify(cfg, Wire(cmds) + tail, eof)
            == seq(|cmds|, i requires 0 <= i < |cmds| => Judgement(cfg, cmds[i])) + Classify(cfg, tail, eof)
    decreases |cmds|
  {
    hide Classify, Frame, Peek;
    if cmds == [] {
      assert Wire(cmds) + tail == tail;
    } else {
      var f, more := Frame(cmds[0]), Wire(cmds[1..]) + tail;
      CommandRecognised(cfg, cmds[0], []);
      assert f + [] == f;
      ClassifyOne(cfg, Judgement(cfg, cmds[0]), more, eof);
      assert Wire(cmds) + tail == f + more;
      PipelineIsItsCommands(cfg, cmds[1..], tail, eof);
      var all := seq(|cmds|, i requires 0 <= i < |cmds| => Judgement(cfg, cmds[i]));
      var rest := seq(|cmds[1..]|, i requires 0 <= i < |cmds[1..]| => Judgement(cfg, cmds[1..][i]));
      assert all == [Judgement(cfg, cmds[0])] + rest;
    }
  }
}
