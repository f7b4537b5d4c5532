/**
 RESP2 values and a slot-limited reference parser.

 The parser that the proxy calls, `redis::UnpackOne`, is a third-party header outside the
 repository.  This module is therefore written from the Redis serialization protocol
 specification (sections "Simple strings", "Simple errors", "Integers", "Bulk strings" and
 "Arrays"), with the one implementation aspect the proxy depends on: parsed values live in an
 arena, the root takes one slot and an array header takes one slot per declared element before
 any element is read.
 */
module Resp {

  newtype Byte = b: int | 0 <= b < 256
  type Bytes = seq<Byte>

  const CR: Byte := 13
  const LF: Byte := 10
  const PLUS: Byte := 43
  const MINUS: Byte := 45
  const ZERO: Byte := 48
  const NINE: Byte := 57
  const COLON: Byte := 58
  const DOLLAR: Byte := 36
  const STAR: Byte := 42

  datatype Option<+T> = None | Some(value: T)

  datatype Value =
    | Simple(text: Bytes)
    | Error(text: Bytes)
    | Integer(number: int)
    | Bulk(text: Bytes)
    | Null
    | Array(elems: seq<Value>)

  datatype Limits = Limits(maxBulk: nat, maxArray: nat, maxDepth: nat)

  /** What is left of the arena. */
  datatype Budget = Unlimited | Slots(n: nat) {
    predicate Fits(k: nat) { Unlimited? || k <= n }

    function Spend(k: nat): Budget
      requires Fits(k)
    {
      if Unlimited? then Unlimited else Slots(n - k)
    }

    predicate AtMost(other: Budget) { other.Unlimited? || (Slots? && n <= other.n) }
  }

  /** `used` counts the arena slots below the parsed value, not the value's own slot. */
  datatype Parsed<+T> =
    | Ok(consumed: nat, value: T, used: nat)
    | NeedMore
    | NoMemory
    | Malformed

  // ----- lines and numbers -----

  /** Position of the first CR LF pair. */
  function FindLine(s: Bytes): (r: Option<nat>)
    ensures r.Some? ==> r.value + 2 <= |s| && s[r.value] == CR && s[r.value + 1] == LF
  {
    if |s| < 2 then None
    else if s[0] == CR && s[1] == LF then Some(0)
    else match FindLine(s[1..])
      case None => None
      case Some(i) => Some(i + 1)
  }

  predicate IsDigit(b: Byte) { ZERO <= b <= NINE }

  predicate AllDigits(s: Bytes) { forall i :: 0 <= i < |s| ==> IsDigit(s[i]) }

  function Digits(s: Bytes): nat
    requires AllDigits(s)
  {
    if s == [] then 0 else 10 * Digits(s[..|s| - 1]) + (s[|s| - 1] - ZERO) as nat
  }

  /** A decimal number with an optional sign. */
  function ParseNumber(line: Bytes): Option<int> {
    if line != [] && AllDigits(line) then Some(Digits(line))
    else if |line| > 1 && AllDigits(line[1..]) && line[0] == MINUS then Some(0 - Digits(line[1..]) as int)
    else if |line| > 1 && AllDigits(line[1..]) && line[0] == PLUS then Some(Digits(line[1..]))
    else None
  }

  /** Simple strings and errors contain neither CR nor LF. */
  predicate Clean(line: Bytes) { CR !in line && LF !in line }

  // ----- values -----

  /** What the first line of a value says: a finished scalar, or an array header. */
  datatype Head =
    | Scalar(result: Parsed<Value>)
    | Elements(length: nat, count: nat)

  function ReadHead(s: Bytes, lim: Limits, depth: nat): (r: Head)
    ensures r.Scalar? ==> !r.result.NoMemory?
    ensures r.Scalar? && r.result.Ok? ==> 3 <= r.result.consumed <= |s| && r.result.used == 0
    ensures r.Elements? ==> 3 <= r.length <= |s|
  {
    if s == [] then Scalar(NeedMore)
    else if s[0] !in {PLUS, MINUS, COLON, DOLLAR, STAR} then Scalar(Malformed)
    else match FindLine(s[1..])
      case None => Scalar(NeedMore)
      case Some(i) => ReadLine(s[0], s[1..i + 1], i + 3, s[i + 3..], lim, depth)
  }

  /** A complete first line, `length` bytes long in all, with what follows it. */
  function ReadLine(kind: Byte, line: Bytes, length: nat, rest: Bytes, lim: Limits, depth: nat): (r: Head)
    ensures r.Scalar? ==> !r.result.NoMemory?
    ensures r.Scalar? && r.result.Ok? ==> length <= r.result.consumed <= length + |rest| && r.result.used == 0
    ensures r.Elements? ==> r.length == length
  {
    if kind == PLUS then Scalar(if Clean(line) then Ok(length, Simple(line), 0) else Malformed)
    else if kind == MINUS then Scalar(if Clean(line) then Ok(length, Error(line), 0) else Malformed)
    else match ParseNumber(line)
      case None => Scalar(Malformed)
      case Some(n) =>
        if kind == COLON then Scalar(Ok(length, Integer(n), 0))
        else if n == -1 then Scalar(Ok(length, Null, 0))
        else if n < 0 then Scalar(Malformed)
        else if kind == DOLLAR then Scalar(ReadBody(length, rest, n, lim))
        else if n > lim.maxArray || depth > lim.maxDepth then Scalar(Malformed)
        else Elements(length, n)
  }

  /** The payload of a bulk string whose header took `length` bytes. */
  function ReadBody(length: nat, rest: Bytes, n: nat, lim: Limits): (r: Parsed<Value>)
    ensures r.Ok? ==> r.consumed == length + n + 2 && n + 2 <= |rest| && r.used == 0
    ensures !r.NoMemory?
  {
    if n > lim.maxBulk then Malformed
    else if |rest| < n + 2 then NeedMore
    else if rest[n] != CR || rest[n + 1] != LF then Malformed
    else Ok(length + n + 2, Bulk(rest[..n]), 0)
  }

  function ParseValue(s: Bytes, lim: Limits, b: Budget, depth: nat): (r: Parsed<Value>)
    ensures r.Ok? ==> r.consumed <= |s| && 3 * (r.used + 1) <= r.consumed && b.Fits(r.used)
    decreases |s|, 0
  {
    match ReadHead(s, lim, depth)
    case Scalar(r) => r
    case Elements(length, n) =>
      if !b.Fits(n) then NoMemory
      else match ParseElems(s[length..], n, lim, b.Spend(n), depth + 1)
        case Ok(c, vs, u) => Ok(length + c, Array(vs), n + u)
        case NeedMore => NeedMore
        case NoMemory => NoMemory
        case Malformed => Malformed
  }

  function ParseElems(s: Bytes, n: nat, lim: Limits, b: Budget, depth: nat): (r: Parsed<seq<Value>>)
    ensures r.Ok? ==> r.consumed <= |s| && 3 * (n + r.used) <= r.consumed && b.Fits(r.used)
    decreases |s|, 1
  {
    if n == 0 then Ok(0, [], 0)
    else match ParseValue(s, lim, b, depth)
      case NeedMore => NeedMore
      case NoMemory => NoMemory
      case Malformed => Malformed
      case Ok(c, v, u) =>
        match ParseElems(s[c..], n - 1, lim, b.Spend(u), depth)
        case Ok(c', vs, u') => Ok(c + c', [v] + vs, u + u')
        case NeedMore => NeedMore
        case NoMemory => NoMemory
        case Malformed => Malformed
  }

  /** Parse one frame into an arena of the given size. */
  function UnpackOne(s: Bytes, b: Budget, lim: Limits): (r: Parsed<Value>)
    ensures r.Ok? ==> r.consumed <= |s| && 3 * r.used <= r.consumed && 0 < r.used
  {
    if !b.Fits(1) then NoMemory
    else match ParseValue(s, lim, b.Spend(1), 1)
      case Ok(c, v, u) => Ok(c, v, u + 1)
      case other => other
  }

  // ----- the facts the growing arena relies on -----

  lemma {:induction false} FindLineExtend(s: Bytes, t: Bytes)
    requires FindLine(s).Some?
    ensures FindLine(s + t) == FindLine(s)
  {
    if !(s[0] == CR && s[1] == LF) {
      FindLineExtend(s[1..], t);
      assert (s + t)[1..] == s[1..] + t;
    }
  }

  lemma ReadHeadExtend(s: Bytes, t: Bytes, lim: Limits, depth: nat)
    requires ReadHead(s, lim, depth) != Scalar(NeedMore)
    ensures ReadHead(s + t, lim, depth) == ReadHead(s, lim, depth)
  {
    hide ReadLine, FindLine;
    assert (s + t)[1..] == s[1..] + t;
    if s[0] in {PLUS, MINUS, COLON, DOLLAR, STAR} {
      FindLineExtend(s[1..], t);
      var i := FindLine(s[1..]).value;
      assert (s + t)[1..i + 1] == s[1..i + 1];
      assert (s + t)[i + 3..] == s[i + 3..] + t;
      ReadLineExtend(s[0], s[1..i + 1], i + 3, s[i + 3..], t, lim, depth);
    }
  }

  lemma ReadLineExtend(kind: Byte, line: Bytes, length: nat, rest: Bytes, t: Bytes, lim: Limits, depth: nat)
    requires ReadLine(kind, line, length, rest, lim, depth) != Scalar(NeedMore)
    ensures ReadLine(kind, line, length, rest + t, lim, depth) == ReadLine(kind, line, length, rest, lim, depth)
  {
    hide ParseNumber;
    var number := ParseNumber(line);
    if number.Some? && 0 <= number.value && number.value + 2 <= |rest| {
      assert (rest + t)[..number.value] == rest[..number.value];
    }
  }

  /** A verdict other than "need more" does not change when more input arrives. */
  lemma {:induction false} ParseValueExtend(s: Bytes, t: Bytes, lim: Limits, b: Budget, depth: nat)
    requires !ParseValue(s, lim, b, depth).NeedMore?
    ensures ParseValue(s + t, lim, b, depth) == ParseValue(s, lim, b, depth)
    decreases |s|, 0
  {
    hide ReadHead;
    ReadHeadExtend(s, t, lim, depth);
    var h := ReadHead(s, lim, depth);
    if h.Elements? && b.Fits(h.count) {
      assert (s + t)[h.length..] == s[h.length..] + t;
      ParseElemsExtend(s[h.length..], t, h.count, lim, b.Spend(h.count), depth + 1);
    }
  }

  lemma {:induction false} ParseElemsExtend(s: Bytes, t: Bytes, n: nat, lim: Limits, b: Budget, depth: nat)
    requires !ParseElems(s, n, lim, b, depth).NeedMore?
    ensures ParseElems(s + t, n, lim, b, depth) == ParseElems(s, n, lim, b, depth)
    decreases |s|, 1
  {
    hide ReadHead;
    if n > 0 {
      ParseValueExtend(s, t, lim, b, depth);
      var r := ParseValue(s, lim, b, depth);
      if r.Ok? {
        assert (s + t)[r.consumed..] == s[r.consumed..] + t;
        ParseElemsExtend(s[r.consumed..], t, n - 1, lim, b.Spend(r.used), depth);
      }
    }
  }

  /** A larger arena changes no verdict other than "out of slots". */
  lemma {:induction false} ParseValueGrow(s: Bytes, lim: Limits, b: Budget, b': Budget, depth: nat)
    requires b.AtMost(b') && !ParseValue(s, lim, b, depth).NoMemory?
    ensures ParseValue(s, lim, b', depth) == ParseValue(s, lim, b, depth)
    decreases |s|, 0
  {
    hide ReadHead;
    var h := ReadHead(s, lim, depth);
    if h.Elements? {
      ParseElemsGrow(s[h.length..], h.count, lim, b.Spend(h.count), b'.Spend(h.count), depth + 1);
    }
  }

  lemma {:induction false} ParseElemsGrow(s: Bytes, n: nat, lim: Limits, b: Budget, b': Budget, depth: nat)
    requires b.AtMost(b') && !ParseElems(s, n, lim, b, depth).NoMemory?
    ensures ParseElems(s, n, lim, b', depth) == ParseElems(s, n, lim, b, depth)
    decreases |s|, 1
  {
    hide ReadHead;
    if n > 0 {
      ParseValueGrow(s, lim, b, b', depth);
      var r := ParseValue(s, lim, b, depth);
      if r.Ok? {
        ParseElemsGrow(s[r.consumed..], n - 1, lim, b.Spend(r.used), b'.Spend(r.used), depth);
      }
    }
  }

  /** An arena with room for every value of a complete frame parses it. */
  lemma {:induction false} ParseValueEnough(s: Bytes, lim: Limits, b: Budget, depth: nat)
    requires var r := ParseValue(s, lim, Unlimited, depth); r.Ok? && b.Fits(r.used)
    ensures ParseValue(s, lim, b, depth) == ParseValue(s, lim, Unlimited, depth)
    decreases |s|, 0
  {
    hide ReadHead;
    var h := ReadHead(s, lim, depth);
    if h.Elements? {
      ParseElemsEnough(s[h.length..], h.count, lim, b.Spend(h.count), depth + 1);
    }
  }

  lemma {:induction false} ParseElemsEnough(s: Bytes, n: nat, lim: Limits, b: Budget, depth: nat)
    requires var r := ParseElems(s, n, lim, Unlimited, depth); r.Ok? && b.Fits(r.used)
    ensures ParseElems(s, n, lim, b, depth) == ParseElems(s, n, lim, Unlimited, depth)
    decreases |s|, 1
  {
    hide ReadHead;
    if n > 0 {
      ParseValueEnough(s, lim, b, depth);
      var r := ParseValue(s, lim, Unlimited, depth);
      ParseElemsEnough(s[r.consumed..], n - 1, lim, b.Spend(r.used), depth);
    }
  }
}
