/** Frames, commands and whole client streams, by the grammar of values. */
module Streams {
  import opened Resp
  import opened Framing
  import opened RoundTrip
  import opened Grammar
  import opened Beginnings

  // ----- frames -----

  /** `unpack` finds a frame exactly where the first `maxFrame` bytes begin with the text of a value within the limits. */
  lemma FrameIffSpelled(lim: Limits, maxFrame: nat, s: Bytes, c: nat, v: Value)
    ensures (Unpacked(lim, maxFrame, s).Ok? && Unpacked(lim, maxFrame, s).consumed == c && Unpacked(lim, maxFrame, s).value == v)
            <==> c <= |s| && c <= maxFrame && Spells(s[..c], v) && Within(v, lim, 1)
  {
    hide UnpackOne, Unpacked, Spells, Within;
    var w := Window(maxFrame, s);
    UnpackRefinesUnbounded(lim, maxFrame, s);
    AcceptsWhatIsSpelled(w, lim, c, v);
    if c <= |w| { assert w[..c] == s[..c]; }
  }

  /** Where there is none, it waits exactly if the bytes stop inside one or fill the largest arena, and gives up at `maxFrame`. */
  lemma NoFrameYet(lim: Limits, maxFrame: nat, s: Bytes)
    ensures Unpacked(lim, maxFrame, s).NeedMore?
            <==> |s| < maxFrame && (Begun(s, lim, 1, false) || UnpackOne(s, Slots(MaxSlots(s)), lim).NoMemory?)
  {
    hide UnpackOne, Begun;
    UnpackRefinesUnbounded(lim, maxFrame, s);
    if |s| < maxFrame {
      assert Window(maxFrame, s) == s;
      WaitsForWhatIsBegun(s, lim);
      UnpackUnlimited(s, lim);
    }
  }

  /** `peekFrame` sees a command exactly where a non-empty array of bulk strings is spelled. */
  lemma CommandIffSpelled(cfg: Config, s: Bytes, c: nat, name: Bytes, argc: nat)
    ensures Peek(cfg, s) == Command(c, name, argc)
            <==> c <= |s| && c <= cfg.maxFrame
                 && exists args :: args != [] && args[0] == name && |args| == argc
                                   && Spells(s[..c], Array(Bulks(args))) && Within(Array(Bulks(args)), cfg.limits, 1)
  {
    hide Unpacked, Spells, Within;
    var r := Unpacked(cfg.limits, cfg.maxFrame, s);
    if Peek(cfg, s) == Command(c, name, argc) {
      var args := seq(|r.value.elems|, i requires 0 <= i < |r.value.elems| => r.value.elems[i].text);
      assert r.value.elems == Bulks(args);
      FrameIffSpelled(cfg.limits, cfg.maxFrame, s, c, r.value);
    }
    if c <= |s| && c <= cfg.maxFrame {
      if args :| args != [] && args[0] == name && |args| == argc
                 && Spells(s[..c], Array(Bulks(args))) && Within(Array(Bulks(args)), cfg.limits, 1)
      {
        FrameIffSpelled(cfg.limits, cfg.maxFrame, s, c, Array(Bulks(args)));
      }
    }
  }

  /** `peekFrame` gives up on any other value, and never while a command may be underway. */
  lemma BadIffNoCommand(cfg: Config, s: Bytes)
    ensures (exists c, v :: 0 <= c <= |s| && c <= cfg.maxFrame && Spells(s[..c], v) && Within(v, cfg.limits, 1) && !IsCommand(v))
            ==> Peek(cfg, s).PeekBad?
    ensures |s| < cfg.maxFrame && Begun(s, cfg.limits, 1, false) ==> Peek(cfg, s).PeekMore?
    ensures Peek(cfg, s).PeekMore? ==> |s| < cfg.maxFrame
  {
    hide Unpacked, Spells, Within, Begun, UnpackOne;
    NoFrameYet(cfg.limits, cfg.maxFrame, s);
    if c, v :| 0 <= c <= |s| && c <= cfg.maxFrame && Spells(s[..c], v) && Within(v, cfg.limits, 1) && !IsCommand(v) {
      FrameIffSpelled(cfg.limits, cfg.maxFrame, s, c, v);
    }
  }

  /** What the encoder writes is one of the texts. */
  lemma {:induction false} EncodedIsSpelled(v: Value, lim: Limits, depth: nat)
    requires Within(v, lim, depth)
    ensures Spells(Encode(v), v)
  {
    hide ParseValue;
    ParsesEncoded(v, [], lim, depth);
    assert Encode(v) + [] == Encode(v) && Encode(v)[..|Encode(v)|] == Encode(v);
    ParsedIsSpelled(Encode(v), lim, depth);
  }

  // ----- streams -----

  /** The first `c` bytes spell this command, within the limits. */
  ghost predicate IsFrame(cfg: Config, s: Bytes, c: nat, args: seq<Bytes>) {
    && args != [] && c <= |s| && c <= cfg.maxFrame
    && Spells(s[..c], Array(Bulks(args))) && Within(Array(Bulks(args)), cfg.limits, 1)
  }

  /** What the command table makes of the command in the frame. */
  function Answer(cfg: Config, frame: Bytes, args: seq<Bytes>): Request
    requires args != []
  {
    var verdict := cfg.rules(args[0], |args|);
    if verdict.Allowed? then Accept(frame) else Reject(frame, Complaint(verdict))
  }

  /** A value may be underway: `unpack` asks for more. */
  predicate Undecided(cfg: Config, s: Bytes) { Unpacked(cfg.limits, cfg.maxFrame, s).NeedMore? }

  /**
   The requests a client's stream contains, by the grammar: for each command spelled one after the other, its
   acceptance or the command table's complaint; and at the end a protocol error, if what is left is neither
   nothing nor something that may still become a command on a stream that is still open.
   */
  ghost predicate Reads(cfg: Config, s: Bytes, eof: bool, rs: seq<Request>)
    decreases |rs|
  {
    if rs == [] then s == [] || (!eof && Undecided(cfg, s))
    else if rs[0].Fatal? then
      && rs == [Fatal("ERR proxy protocol error")] && s != [] && (eof || !Undecided(cfg, s))
      && forall c: nat, args :: !IsFrame(cfg, s, c, args)
    else
      exists c: nat, args :: IsFrame(cfg, s, c, args) && rs[0] == Answer(cfg, s[..c], args) && Reads(cfg, s[c..], eof, rs[1..])
  }

  /** Whatever `peekFrame` makes of an input, the grammar makes of it too. */
  lemma PeekByGrammar(cfg: Config, s: Bytes)
    requires cfg.Valid()
    ensures Peek(cfg, s).Command? <==> exists c: nat, args :: IsFrame(cfg, s, c, args)
    ensures Peek(cfg, s).PeekMore? <==> Undecided(cfg, s)
    ensures forall c: nat, args :: IsFrame(cfg, s, c, args) ==> Peek(cfg, s) == Command(c, args[0], |args|)
    ensures s == [] ==> Undecided(cfg, s)
  {
    hide Unpacked, Spells, Within;
    var p := Peek(cfg, s);
    if p.Command? {
      CommandIffSpelled(cfg, s, p.consumed, p.name, p.argc);
      var args :| args != [] && args[0] == p.name && |args| == p.argc
                  && Spells(s[..p.consumed], Array(Bulks(args))) && Within(Array(Bulks(args)), cfg.limits, 1);
      assert IsFrame(cfg, s, p.consumed, args);
    }
    forall c: nat, args | IsFrame(cfg, s, c, args) ensures p == Command(c, args[0], |args|) {
      CommandIffSpelled(cfg, s, c, args[0], |args|);
    }
    PeekEmpty(cfg);
  }

  lemma FirstCommand(cfg: Config, s: Bytes, eof: bool, c: nat, args: seq<Bytes>)
    requires cfg.Valid() && IsFrame(cfg, s, c, args)
    ensures 0 < c <= |s| && Classify(cfg, s, eof) == [Answer(cfg, s[..c], args)] + Classify(cfg, s[c..], eof)
  {
    hide Peek, Spells, Within, Complaint;
    PeekByGrammar(cfg, s);
  }

  lemma NoCommand(cfg: Config, s: Bytes, eof: bool)
    requires cfg.Valid() && forall c: nat, args :: !IsFrame(cfg, s, c, args)
    ensures Classify(cfg, s, eof) == if s == [] || (!eof && Undecided(cfg, s)) then [] else [Fatal("ERR proxy protocol error")]
  {
    hide Peek, IsFrame, Undecided;
    PeekByGrammar(cfg, s);
  }

  lemma {:induction false} ClassifyIsRead(cfg: Config, s: Bytes, eof: bool)
    requires cfg.Valid()
    ensures Reads(cfg, s, eof, Classify(cfg, s, eof))
    decreases |s|
  {
    hide IsFrame, Undecided, Classify, Answer;
    if c: nat, args :| IsFrame(cfg, s, c, args) {
      FirstCommand(cfg, s, eof, c, args);
      ClassifyIsRead(cfg, s[c..], eof);
      assert Classify(cfg, s, eof)[1..] == Classify(cfg, s[c..], eof);
      AnswerIsNotFatal(cfg, s, c, args);
    } else {
      NoCommand(cfg, s, eof);
    }
  }

  lemma AnswerIsNotFatal(cfg: Config, s: Bytes, c: nat, args: seq<Bytes>)
    requires IsFrame(cfg, s, c, args)
    ensures args != [] && c <= |s| && !Answer(cfg, s[..c], args).Fatal?
  {
  }

  lemma {:induction false} ReadIsClassified(cfg: Config, s: Bytes, eof: bool, rs: seq<Request>)
    requires cfg.Valid() && Reads(cfg, s, eof, rs)
    ensures rs == Classify(cfg, s, eof)
    decreases |rs|
  {
    hide Undecided, Classify, Answer, Spells, Within;
    if rs == [] {
      PeekByGrammar(cfg, s);
      if !exists c: nat, args :: IsFrame(cfg, s, c, args) { NoCommand(cfg, s, eof); }
    } else if rs[0].Fatal? {
      NoCommand(cfg, s, eof);
    } else {
      var c: nat, args :| IsFrame(cfg, s, c, args) && rs[0] == Answer(cfg, s[..c], args) && Reads(cfg, s[c..], eof, rs[1..]);
      FirstCommand(cfg, s, eof, c, args);
      ReadIsClassified(cfg, s[c..], eof, rs[1..]);
      assert rs == [rs[0]] + rs[1..];
    }
  }

  /** The reading of a stream that the proxy's theorems speak of is the one the grammar gives, and no other. */
  lemma StreamReadsAs(cfg: Config, s: Bytes, eof: bool, rs: seq<Request>)
    requires cfg.Valid()
    ensures Reads(cfg, s, eof, rs) <==> rs == Classify(cfg, s, eof)
  {
    hide Reads, Classify;
    ClassifyIsRead(cfg, s, eof);
    if Reads(cfg, s, eof, rs) { ReadIsClassified(cfg, s, eof, rs); }
  }
}
