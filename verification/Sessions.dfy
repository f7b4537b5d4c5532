/** One client connection: `ClientSession`, its two loops and the client behind it. */
module Sessions {
  import opened Resp
  import opened Signals
  import opened Framing
  import opened Channels

  datatype SessionState = Open | Draining | Aborted

  datatype ReaderPc = ReaderTop | Reading | Awaiting(message: string) | ReaderExited
  datatype WriterPc = WriterTop | Sending | WriterExited

  /** A reply in the output queue: Redis's answer to a tagged command, or an error of our own. */
  datatype Reply = FromBackend(tag: Tag) | ErrorReply(message: string)

  datatype Session = Session(
    inc: nat,
    state: SessionState,
    pendingReplies: int,
    currentBackend: Option<nat>,
    clientIn: Bytes,
    clientOut: seq<Reply>,
    finalError: string,
    activeLoops: int,
    outputSignal: Signal,
    replySignal: Signal,
    reader: ReaderPc,
    writer: WriterPc,
    // history
    received: Bytes,          // every byte read from the client
    eof: bool,                // the client has closed its side
    requests: seq<Request>,   // what has been made of those bytes so far
    queued: seq<Reply>,       // every reply ever put in the output queue
    handed: seq<Reply>,       // every reply ever handed to the socket
    failures: nat,            // calls of onBackendFailure
    finishes: nat             // calls of on_finished_
  )

  function NewSession(inc: nat): Session {
    Session(inc, Open, 0, None, [], [], "", 2, IdleSignal, IdleSignal, ReaderTop, WriterTop,
            [], false, [], [], [], 0, 0)
  }

  /** The reply that request `i` of session `inc` is due. */
  function Due(inc: nat, i: nat, r: Request): Reply {
    match r
    case Accept(_) => FromBackend(Tag(inc, i))
    case Reject(_, message) => ErrorReply(message)
    case Fatal(message) => ErrorReply(message)
  }

  /** `n` consecutive requests of one session. */
  function Range(inc: nat, lo: nat, n: int): (r: seq<Tag>)
    ensures |r| == if n < 0 then 0 else n
    ensures forall i :: 0 <= i < |r| ==> r[i] == Tag(inc, lo + i)
  {
    seq(if n < 0 then 0 else n, i requires 0 <= i => Tag(inc, lo + i))
  }

  // ----- reader -----

  /** A scanned batch has been accepted by channel `c`. */
  function Take(s: Session, rs: seq<Request>, c: nat): Session
    requires |FrameBytes(rs)| <= |s.clientIn|
  {
    s.(clientIn := s.clientIn[|FrameBytes(rs)|..],
       requests := s.requests + rs,
       currentBackend := Some(c),
       pendingReplies := s.pendingReplies + |rs|)
  }

  /** A rejected command: its bytes go, its error waits for the replies before it. */
  function Refuse(s: Session, frame: Bytes, message: string): Session
    requires |frame| <= |s.clientIn|
  {
    s.(clientIn := s.clientIn[|frame|..],
       requests := s.requests + [Reject(frame, message)],
       reader := Awaiting(message))
  }

  /** `drain`, on behalf of the reader. */
  function Drain(s: Session, error: string): Session {
    if !s.state.Open? then s.(reader := ReaderTop)
    else s.(state := Draining, finalError := error, outputSignal := s.outputSignal.Notify(),
            requests := s.requests + (if error == "" then [] else [Fatal(error)]),
            reader := ReaderTop)
  }

  function PushReply(s: Session, r: Reply): Session {
    s.(clientOut := s.clientOut + [r], queued := s.queued + [r], outputSignal := s.outputSignal.Notify())
  }

  /** One turn of the wait for outstanding replies before a rejection is answered. */
  function AwaitReplies(s: Session): Session
    requires s.reader.Awaiting?
  {
    if s.state.Open? && s.pendingReplies != 0 then s.(replySignal := s.replySignal.Wait())
    else if !s.state.Open? then s.(reader := ReaderTop)
    else PushReply(s, ErrorReply(s.reader.message)).(reader := ReaderTop)
  }

  /** `readSome` has returned data. */
  function Feed(s: Session, data: Bytes): Session {
    if !s.state.Open? then s.(reader := ReaderTop)
    else s.(clientIn := s.clientIn + data, received := s.received + data, reader := ReaderTop)
  }

  /** `readSome` has reported that the client closed its side. */
  function HangUp(s: Session): Session {
    if !s.state.Open? then s.(reader := ReaderTop)
    else Drain(s.(eof := true), if s.clientIn == [] then "" else PROTOCOL_ERROR)
  }

  // ----- writer -----

  const OUTPUT_BATCH := 64

  function HandOver(s: Session): Session {
    var n := Min(OUTPUT_BATCH, |s.clientOut|);
    s.(handed := s.handed + s.clientOut[..n], clientOut := s.clientOut[n..], writer := Sending)
  }

  /** The final error is the answer to the last request, and goes out after every other reply. */
  function PushFinal(s: Session): Session {
    s.(clientOut := [ErrorReply(s.finalError)], queued := s.queued + [ErrorReply(s.finalError)], finalError := "")
  }

  /** One turn of the output loop of a session that is not aborted and not done. */
  function WriteTurn(s: Session): Session {
    if s.clientOut != [] then HandOver(s)
    else if s.state.Draining? && s.pendingReplies == 0 then
      HandOver(PushFinal(s))
    else s.(outputSignal := s.outputSignal.Wait())
  }

  /** The output loop has nothing left to write and never will. */
  predicate WriterDone(s: Session) {
    s.state.Aborted?
    || (s.clientOut == [] && s.state.Draining? && s.pendingReplies == 0 && s.finalError == "")
  }

  // ----- callbacks -----

  function OnBackendReply(s: Session, t: Tag): Session {
    var n := s.pendingReplies - 1;
    var s1 := s.(pendingReplies := n);
    var s2 := if n == 0 then s1.(currentBackend := None, replySignal := s1.replySignal.Notify()) else s1;
    PushReply(s2, FromBackend(t))
  }

  /** `abort` apart from the detaching. */
  function AbortSession(s: Session): Session {
    s.(state := Aborted, currentBackend := None, pendingReplies := 0, clientOut := [],
       outputSignal := s.outputSignal.Notify(), replySignal := s.replySignal.Notify())
  }

  /** `finishLoop` apart from the detaching and the worker's list. */
  function EndLoop(s: Session): Session {
    s.(activeLoops := s.activeLoops - 1, finishes := s.finishes + (if s.activeLoops - 1 == 0 then 1 else 0))
  }

  // ----- the session invariant -----

  predicate CountInv(s: Session) {
    && 0 <= s.pendingReplies
    && (s.currentBackend.None? <==> s.pendingReplies == 0)
    && |s.queued| + s.pendingReplies <= |s.requests|
    && (s.state.Aborted? ==> s.pendingReplies == 0 && s.clientOut == [])
  }

  /** What of the requests is neither answered nor at a backend. */
  function Remainder(s: Session): seq<Request>
    requires CountInv(s)
  {
    s.requests[|s.queued| + s.pendingReplies..]
  }

  predicate RemainderInv(s: Session)
    requires CountInv(s)
  {
    match s.state
    case Aborted => true
    case Open =>
      if s.reader.Awaiting? then
        |Remainder(s)| == 1 && Remainder(s)[0].Reject? && Remainder(s)[0].message == s.reader.message
      else Remainder(s) == []
    case Draining => Remainder(s) == if s.finalError == "" then [] else [Fatal(s.finalError)]
  }

  predicate OrderInv(s: Session) {
    && CountInv(s)
    && (forall i :: 0 <= i < |s.queued| ==> s.queued[i] == Due(s.inc, i, s.requests[i]))
    && (forall i :: |s.queued| <= i < |s.queued| + s.pendingReplies ==> s.requests[i].Accept?)
    && RemainderInv(s)
  }

  predicate OutputInv(s: Session) {
    && s.handed <= s.queued
    && (!s.state.Aborted? ==> s.handed + s.clientOut == s.queued)
  }

  predicate FramingInv(cfg: Config, s: Session) {
    && (s.state.Open? ==> !s.eof && AllJudged(cfg, s.requests) && s.received == FrameBytes(s.requests) + s.clientIn)
    && (s.state.Draining? ==> s.requests == Classify(cfg, s.received, s.eof))
    && (s.state.Aborted? ==> s.requests <= Classify(cfg, s.received, s.eof))
    && (s.state.Open? && s.reader.Reading? ==> Peek(cfg, s.clientIn).PeekMore?)
  }

  predicate LoopInv(s: Session) {
    && (s.state.Open? ==> !s.reader.ReaderExited?)
    && (s.state.Draining? ==> s.reader.ReaderExited? || s.reader.ReaderTop?)
    && (s.writer.WriterExited? ==> WriterDone(s))
    && s.activeLoops == (if s.reader.ReaderExited? then 0 else 1) + (if s.writer.WriterExited? then 0 else 1)
    && s.finishes == (if s.activeLoops == 0 then 1 else 0)
  }

  /** A sleeping writer has nothing to write; a sleeping reader still waits for replies. */
  predicate SessionAwake(s: Session) {
    && (!s.replySignal.waiter.Running? ==> s.reader.Awaiting?)
    && (!s.outputSignal.waiter.Running? ==> s.writer.WriterTop?)
    && (s.outputSignal.waiter.Blocked? ==>
          s.clientOut == [] && !s.state.Aborted? && !(s.state.Draining? && s.pendingReplies == 0))
    && (s.replySignal.waiter.Blocked? ==> s.state.Open? && s.pendingReplies != 0)
  }

  predicate SessionInv(cfg: Config, s: Session) {
    OrderInv(s) && OutputInv(s) && FramingInv(cfg, s) && LoopInv(s) && SessionAwake(s)
  }

  lemma NewSessionInv(cfg: Config, inc: nat)
    ensures SessionInv(cfg, NewSession(inc))
  {
  }

  // ----- what the steps keep -----

  lemma TakeFraming(cfg: Config, s: Session, rs: seq<Request>, c: nat)
    requires FramingInv(cfg, s) && s.state.Open? && s.reader.ReaderTop?
    requires AllJudged(cfg, rs) && FrameBytes(rs) <= s.clientIn
    ensures FramingInv(cfg, Take(s, rs, c))
  {
    hide Peek, Classify, Judged, FrameBytes;
    FrameBytesConcat(s.requests, rs);
    var n := |FrameBytes(rs)|;
    assert s.clientIn == FrameBytes(rs) + s.clientIn[n..];
    assert FrameBytes(s.requests) + s.clientIn == FrameBytes(s.requests + rs) + s.clientIn[n..];
  }

  lemma TakeOrder(s: Session, rs: seq<Request>, c: nat)
    requires OrderInv(s) && s.state.Open? && s.reader.ReaderTop? && rs != []
    requires (forall i :: 0 <= i < |rs| ==> rs[i].Accept?) && |FrameBytes(rs)| <= |s.clientIn|
    ensures OrderInv(Take(s, rs, c))
  {
    hide FrameBytes;
    var s' := Take(s, rs, c);
    assert |s.requests| == |s.queued| + s.pendingReplies;
    assert forall i :: |s.requests| <= i < |s'.requests| ==> s'.requests[i] == rs[i - |s.requests|];
  }

  lemma TakeKeeps(cfg: Config, s: Session, rs: seq<Request>, c: nat)
    requires SessionInv(cfg, s) && s.state.Open? && s.reader.ReaderTop? && rs != []
    requires AllJudged(cfg, rs) && (forall i :: 0 <= i < |rs| ==> rs[i].Accept?) && FrameBytes(rs) <= s.clientIn
    ensures SessionInv(cfg, Take(s, rs, c))
  {
    hide OrderInv, FramingInv, FrameBytes;
    TakeOrder(s, rs, c);
    TakeFraming(cfg, s, rs, c);
  }

  lemma RefuseFraming(cfg: Config, s: Session, frame: Bytes, message: string)
    requires FramingInv(cfg, s) && s.state.Open?
    requires frame <= s.clientIn && Judged(cfg, Reject(frame, message))
    ensures FramingInv(cfg, Refuse(s, frame, message))
  {
    hide Peek, Classify, Judged;
    var r := Reject(frame, message);
    assert (s.requests + [r])[..|s.requests|] == s.requests;
    assert s.clientIn == frame + s.clientIn[|frame|..];
  }

  lemma RefuseKeeps(cfg: Config, s: Session, frame: Bytes, message: string)
    requires SessionInv(cfg, s) && s.state.Open? && s.reader.ReaderTop?
    requires frame <= s.clientIn && Judged(cfg, Reject(frame, message))
    ensures SessionInv(cfg, Refuse(s, frame, message))
  {
    hide FramingInv, Judged;
    RefuseFraming(cfg, s, frame, message);
  }

  /** Nothing read from the client, however it was cut into reads, is misread. */
  lemma OpenClassify(cfg: Config, s: Session, eof: bool)
    requires FramingInv(cfg, s) && s.state.Open?
    ensures Classify(cfg, s.received, eof) == s.requests + Classify(cfg, s.clientIn, eof)
  {
    ClassifyTaken(cfg, s.requests, s.clientIn, eof);
  }

  lemma DrainKeeps(cfg: Config, s: Session, eof: bool, error: string)
    requires SessionInv(cfg, s) && s.state.Open? && (s.reader.ReaderTop? || s.reader.Reading?)
    requires Classify(cfg, s.clientIn, eof) == if error == "" then [] else [Fatal(error)]
    ensures SessionInv(cfg, Drain(s.(eof := eof), error))
  {
    hide Peek, Classify, Judged, FrameBytes;
    OpenClassify(cfg, s, eof);
  }

  lemma BrokenKeeps(cfg: Config, s: Session)
    requires SessionInv(cfg, s) && s.state.Open? && s.reader.ReaderTop? && Peek(cfg, s.clientIn).PeekBad?
    ensures SessionInv(cfg, Drain(s, PROTOCOL_ERROR))
  {
    DrainKeeps(cfg, s, false, PROTOCOL_ERROR);
    assert s.(eof := false) == s;
  }

  lemma HangUpKeeps(cfg: Config, s: Session)
    requires SessionInv(cfg, s) && s.reader.Reading?
    ensures SessionInv(cfg, HangUp(s))
  {
    if s.state.Open? { DrainKeeps(cfg, s, true, if s.clientIn == [] then "" else PROTOCOL_ERROR); }
  }

  lemma FeedKeeps(cfg: Config, s: Session, data: Bytes)
    requires SessionInv(cfg, s) && s.reader.Reading?
    ensures SessionInv(cfg, Feed(s, data))
  {
    hide Peek, Classify, Judged, FrameBytes;
  }

  lemma AwaitKeeps(cfg: Config, s: Session)
    requires SessionInv(cfg, s) && s.reader.Awaiting? && s.replySignal.waiter.Running?
    ensures SessionInv(cfg, AwaitReplies(s))
  {
    hide Peek, Classify, Judged, FrameBytes;
  }

  lemma HandOverKeeps(cfg: Config, s: Session)
    requires SessionInv(cfg, s) && s.writer.WriterTop? && s.outputSignal.waiter.Running? && s.clientOut != []
    ensures SessionInv(cfg, HandOver(s))
  {
    hide Peek, Classify, Judged, FrameBytes, RemainderInv;
    var n := Min(OUTPUT_BATCH, |s.clientOut|);
    assert s.clientOut == s.clientOut[..n] + s.clientOut[n..];
    assert RemainderInv(HandOver(s)) by { RemainderFrame(s, HandOver(s)); }
  }

  lemma RemainderFrame(s: Session, s': Session)
    requires CountInv(s) && CountInv(s') && RemainderInv(s)
    requires s'.state == s.state && s'.reader == s.reader && s'.finalError == s.finalError
    requires s'.requests == s.requests && |s'.queued| + s'.pendingReplies == |s.queued| + s.pendingReplies
    ensures RemainderInv(s')
  {
  }

  lemma PushFinalKeeps(cfg: Config, s: Session)
    requires SessionInv(cfg, s) && s.writer.WriterTop? && s.outputSignal.waiter.Running?
    requires s.clientOut == [] && s.state.Draining? && s.pendingReplies == 0 && s.finalError != ""
    ensures SessionInv(cfg, PushFinal(s))
  {
    hide Peek, Classify, Judged, FrameBytes;
    assert s.requests[|s.queued|] == Remainder(s)[0];
  }

  lemma WriteTurnKeeps(cfg: Config, s: Session)
    requires SessionInv(cfg, s) && s.writer.WriterTop? && s.outputSignal.waiter.Running? && !WriterDone(s)
    ensures SessionInv(cfg, WriteTurn(s))
  {
    if s.clientOut != [] {
      HandOverKeeps(cfg, s);
    } else if s.state.Draining? && s.pendingReplies == 0 {
      PushFinalKeeps(cfg, s);
      HandOverKeeps(cfg, PushFinal(s));
    }
  }

  lemma OnBackendReplyKeeps(cfg: Config, s: Session)
    requires SessionInv(cfg, s) && s.pendingReplies > 0
    ensures SessionInv(cfg, OnBackendReply(s, Tag(s.inc, |s.queued|)))
  {
    hide Peek, Classify, Judged, FrameBytes;
  }

  lemma AbortKeeps(cfg: Config, s: Session)
    requires SessionInv(cfg, s) && !s.state.Aborted?
    ensures SessionInv(cfg, AbortSession(s))
  {
    hide Peek, Classify, Judged, FrameBytes;
    if s.state.Open? { OpenClassify(cfg, s, s.eof); }
  }

  lemma EndReaderKeeps(cfg: Config, s: Session)
    requires SessionInv(cfg, s) && s.reader.ReaderTop? && !s.state.Open?
    ensures SessionInv(cfg, EndLoop(s.(reader := ReaderExited)))
  {
    hide Peek, Classify, Judged, FrameBytes;
  }

  lemma EndWriterKeeps(cfg: Config, s: Session)
    requires SessionInv(cfg, s) && s.writer.WriterTop? && s.outputSignal.waiter.Running? && WriterDone(s)
    ensures SessionInv(cfg, EndLoop(s.(writer := WriterExited)))
  {
    hide Peek, Classify, Judged, FrameBytes;
  }
}
