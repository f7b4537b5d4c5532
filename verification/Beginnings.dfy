/** Which bytes are the beginning of a value's text, when the parser waits for more, and when that is worth while. */
module Beginnings {
  import opened Resp
  import opened Framing
  import opened RoundTrip
  import opened Grammar

  // ----- beginnings -----

  predicate NoLine(p: Bytes) { forall i :: 0 <= i < |p| - 1 ==> !(p[i] == CR && p[i + 1] == LF) }

  /** The line so far, without the CR that may already have come. */
  function Line(p: Bytes): Bytes { if Ended(p) then p[..|p| - 1] else p }

  predicate Ended(p: Bytes) { p != [] && p[|p| - 1] == CR }

  /** The beginning of a numeral, or all of it. */
  predicate NumberBegun(p: Bytes) { AllDigits(Unsigned(Line(p))) && (Ended(p) ==> Unsigned(Line(p)) != []) }

  /** ... of one that says at most `max`, or minus one. */
  predicate LengthBegun(p: Bytes, max: nat) {
    && NumberBegun(p)
    && Worth(Unsigned(Line(p))) <= if Line(p) != [] && Line(p)[0] == MINUS then 1 else max
  }

  /** ... of one that says minus one. */
  predicate NullBegun(p: Bytes) {
    if Line(p) == [] then !Ended(p)
    else && Line(p)[0] == MINUS && NumberBegun(p) && Worth(Unsigned(Line(p))) <= 1
         && (Ended(p) ==> Worth(Unsigned(Line(p))) == 1)
  }

  /** A line without its end that can still become one within the limits. */
  predicate OpenLine(kind: Byte, p: Bytes, lim: Limits, depth: nat) {
    if kind == PLUS || kind == MINUS then Clean(Line(p))
    else if kind == COLON then NumberBegun(p)
    else if kind == DOLLAR then LengthBegun(p, lim.maxBulk)
    else if depth <= lim.maxDepth then LengthBegun(p, lim.maxArray)
    else NullBegun(p)
  }

  /**
   The bytes stop inside a value within the limits: in its first line, in the payload of a bulk string,
   or in an element of an array.  If `strict`, the last line or payload shows no byte out of place so far.
   */
  ghost predicate Begun(s: Bytes, lim: Limits, depth: nat, strict: bool)
    decreases |s|, 0
  {
    || s == []
    || (s[0] in {PLUS, MINUS, COLON, DOLLAR, STAR} && NoLine(s[1..]) && (strict ==> OpenLine(s[0], s[1..], lim, depth)))
    || (exists i, n: nat :: 0 <= i <= |s| && Header(s[..i], DOLLAR, n) && n <= lim.maxBulk && BodyBegun(s[i..], n, strict))
    || (exists i, n: nat :: 0 <= i <= |s| && Header(s[..i], STAR, n) && n <= lim.maxArray && depth <= lim.maxDepth
                            && BegunAll(s[i..], n, lim, depth + 1, strict))
  }

  predicate BodyBegun(s: Bytes, n: nat, strict: bool) { |s| < n + 2 && (strict && |s| > n ==> s[n] == CR) }

  /** Fewer than `n` whole values, and then the beginning of another. */
  ghost predicate BegunAll(s: Bytes, n: nat, lim: Limits, depth: nat, strict: bool)
    decreases |s|, 1
  {
    n > 0 && (|| Begun(s, lim, depth, strict)
              || exists k, v :: 0 < k <= |s| && Spells(s[..k], v) && Within(v, lim, depth) && BegunAll(s[k..], n - 1, lim, depth, strict))
  }

  // ----- the parser waits exactly for beginnings -----

  lemma {:induction false} NoLineIff(p: Bytes)
    ensures FindLine(p).None? <==> NoLine(p)
  {
    if |p| >= 2 {
      NoLineIff(p[1..]);
      if NoLine(p[1..]) && !(p[0] == CR && p[1] == LF) {
        forall i | 0 <= i < |p| - 1 ensures !(p[i] == CR && p[i + 1] == LF) {
          if i > 0 { assert p[1..][i - 1] == p[i]; }
        }
      }
    }
  }

  lemma HeadWaits(s: Bytes, lim: Limits, depth: nat)
    requires ReadHead(s, lim, depth) == Scalar(NeedMore)
    ensures Begun(s, lim, depth, false)
  {
    hide FindLine, ParseNumber, Header, NoLine, BegunAll;
    if s != [] {
      NoLineIff(s[1..]);
      if FindLine(s[1..]).Some? {
        var i := FindLine(s[1..]).value;
        var n := ParseNumber(s[1..i + 1]).value;
        LineIsHeader(s, i, n);
        assert BodyBegun(s[i + 3..], n, false);
      }
    }
  }

  lemma {:induction false} WaitingIsBegun(s: Bytes, lim: Limits, depth: nat)
    requires ParseValue(s, lim, Unlimited, depth).NeedMore?
    ensures Begun(s, lim, depth, false)
    decreases |s|, 0
  {
    hide ReadHead, Header;
    var h := ReadHead(s, lim, depth);
    if h.Scalar? {
      HeadWaits(s, lim, depth);
    } else {
      ArrayHeader(s, lim, depth);
      WaitingAreBegun(s[h.length..], h.count, lim, depth + 1);
    }
  }

  lemma {:induction false} WaitingAreBegun(s: Bytes, n: nat, lim: Limits, depth: nat)
    requires ParseElems(s, n, lim, Unlimited, depth).NeedMore?
    ensures BegunAll(s, n, lim, depth, false)
    decreases |s|, 1
  {
    hide ParseValue, Spells, Within, Begun;
    var r := ParseValue(s, lim, Unlimited, depth);
    if r.NeedMore? {
      WaitingIsBegun(s, lim, depth);
    } else {
      ParsedIsSpelled(s, lim, depth);
      assert r.consumed > 0;
      WaitingAreBegun(s[r.consumed..], n - 1, lim, depth);
    }
  }

  lemma {:induction false} BegunIsWaiting(s: Bytes, lim: Limits, depth: nat)
    requires Begun(s, lim, depth, false)
    ensures ParseValue(s, lim, Unlimited, depth).NeedMore?
    decreases |s|, 0
  {
    hide ParseNumber, Header, FindLine, NoLine, BegunAll, ParseElems;
    if s == [] {
    } else if s[0] in {PLUS, MINUS, COLON, DOLLAR, STAR} && NoLine(s[1..]) {
      NoLineIff(s[1..]);
    } else if i, n: nat :| 0 <= i <= |s| && Header(s[..i], DOLLAR, n) && n <= lim.maxBulk && BodyBegun(s[i..], n, false) {
      hide ReadHead;
      HeaderIsRead(s[..i], DOLLAR, n, s[i..], lim, depth);
      assert s[..i] + s[i..] == s;
    } else {
      hide ReadHead;
      var i, n: nat :| 0 <= i <= |s| && Header(s[..i], STAR, n) && n <= lim.maxArray && depth <= lim.maxDepth
                       && BegunAll(s[i..], n, lim, depth + 1, false);
      ArrayIsRead(s, i, n, [], lim, depth);
      assert s + [] == s && s[i..] + [] == s[i..];
      HeaderLength(s[..i], STAR, n);
      BegunAreWaiting(s[i..], n, lim, depth + 1);
    }
  }

  lemma HeaderLength(h: Bytes, kind: Byte, n: int)
    requires Header(h, kind, n)
    ensures |h| >= 3
  {
  }

  lemma {:induction false} BegunAreWaiting(s: Bytes, n: nat, lim: Limits, depth: nat)
    requires BegunAll(s, n, lim, depth, false)
    ensures ParseElems(s, n, lim, Unlimited, depth).NeedMore?
    decreases |s|, 1
  {
    hide ParseValue, Spells, Within, Begun;
    if Begun(s, lim, depth, false) {
      BegunIsWaiting(s, lim, depth);
    } else {
      var k, v :| 0 < k <= |s| && Spells(s[..k], v) && Within(v, lim, depth) && BegunAll(s[k..], n - 1, lim, depth, false);
      SpelledIsParsed(s[..k], v, s[k..], lim, depth);
      assert s[..k] + s[k..] == s;
      BegunAreWaiting(s[k..], n - 1, lim, depth);
    }
  }

  /** The parser asks for more exactly when the bytes stop inside a value within the limits. */
  lemma WaitsForWhatIsBegun(w: Bytes, lim: Limits)
    ensures UnpackOne(w, Unlimited, lim).NeedMore? <==> Begun(w, lim, 1, false)
  {
    hide ParseValue, Begun;
    if UnpackOne(w, Unlimited, lim).NeedMore? { WaitingIsBegun(w, lim, 1); }
    if Begun(w, lim, 1, false) { BegunIsWaiting(w, lim, 1); }
  }

  // ----- when waiting is worth while -----

  lemma {:induction false} WorthPrefix(a: Bytes, b: Bytes)
    requires AllDigits(a + b)
    ensures AllDigits(a) && Worth(a) <= Worth(a + b)
  {
    assert a == (a + b)[..|a|];
    if b == [] {
      assert a + b == a;
    } else {
      var init, d := b[..|b| - 1], b[|b| - 1];
      assert (a + b)[..|a + b| - 1] == a + init && (a + b)[|a + b| - 1] == d;
      WorthPrefix(a, init);
      WorthAppend(a + init, d);
      assert a + b == a + init + [d];
    }
  }

  /** What is left of a numeral's beginning. */
  lemma NumeralPrefix(p: Bytes, line: Bytes, n: int)
    requires Numeral(line, n) && (p == line + [CR] || p <= line)
    ensures NumberBegun(p) && Line(p) <= line && (Line(p) == [] ==> !Ended(p))
    ensures Worth(Unsigned(Line(p))) <= Worth(Unsigned(line)) && (Ended(p) ==> Line(p) == line)
  {
    hide Worth;
    NumeralIsOneLine(line, n);
    if p == line + [CR] {
      assert p[..|p| - 1] == line;
    } else {
      assert forall b :: b in p ==> b in line;
      var digits, rest := Unsigned(p), line[|p|..];
      assert line == p + rest;
      if p != [] { assert Unsigned(line) == digits + rest; WorthPrefix(digits, rest); }
      else { WorthPrefix([], Unsigned(line)); assert [] + Unsigned(line) == Unsigned(line); }
    }
  }

  lemma LineStaysOpen(kind: Byte, p: Bytes, line: Bytes, length: nat, rest: Bytes, lim: Limits, depth: nat)
    requires p == line + [CR] || p <= line
    requires var h := ReadLine(kind, line, length, rest, lim, depth); h.Elements? || h.result.Ok?
    requires kind in {PLUS, MINUS, COLON, DOLLAR, STAR}
    ensures OpenLine(kind, p, lim, depth)
  {
    assert Worth([]) == 0;
    hide Worth, ParseNumber, NumberBegun, Numeral;
    if kind == PLUS || kind == MINUS {
      assert p == line + [CR] ==> p[..|p| - 1] == line;
      assert p <= line ==> forall b :: b in p ==> b in line;
      assert forall b :: b in Line(p) ==> b in line;
    } else {
      var n := ParseNumber(line).value;
      NumeralIff(line, n);
      NumeralPrefix(p, line, n);
      NumeralSize(line, n);
    }
  }

  lemma NumeralSize(line: Bytes, n: int)
    requires Numeral(line, n)
    ensures line != [] && AllDigits(Unsigned(line)) && n == if line[0] == MINUS then 0 - Worth(Unsigned(line)) as int else Worth(Unsigned(line))
  {
  }

  /** An unfinished first line of something that becomes a value is open. */
  lemma FirstLineOpen(s: Bytes, t: Bytes, lim: Limits, depth: nat)
    requires s != [] && NoLine(s[1..])
    requires var h := ReadHead(s + t, lim, depth); h.Elements? || h.result.Ok?
    ensures s[0] in {PLUS, MINUS, COLON, DOLLAR, STAR} && OpenLine(s[0], s[1..], lim, depth)
  {
    hide FindLine, ReadLine, OpenLine;
    var p := s[1..];
    assert (s + t)[1..] == p + t && (s + t)[0] == s[0];
    var i := FindLine(p + t).value;
    var line := (s + t)[1..i + 1];
    assert line == (p + t)[..i];
    assert forall j :: 0 <= j < |p| ==> p[j] == (p + t)[j];
    assert i + 1 >= |p|;
    if i < |p| { assert p == line + [CR]; } else { assert p == line[..|p|]; }
    LineStaysOpen(s[0], p, line, i + 3, (s + t)[i + 3..], lim, depth);
  }

  lemma Extended(s: Bytes, t: Bytes, i: nat)
    requires i <= |s|
    ensures (s + t)[i..] == s[i..] + t
  {
  }

  lemma BodyStaysOpen(s: Bytes, t: Bytes, lim: Limits, depth: nat)
    requires s != [] && ReadHead(s, lim, depth) == Scalar(NeedMore) && FindLine(s[1..]).Some?
    requires var h := ReadHead(s + t, lim, depth); h.Elements? || h.result.Ok?
    ensures Begun(s, lim, depth, true)
  {
    hide FindLine, ParseNumber, Header, NoLine, BegunAll, OpenLine;
    FindLineExtend(s[1..], t);
    var i := FindLine(s[1..]).value;
    var n := ParseNumber(s[1..i + 1]).value;
    Extended(s, t, 1);
    Extended(s, t, i + 3);
    assert (s + t)[1..i + 1] == s[1..i + 1];
    LineIsHeader(s, i, n);
    assert BodyBegun(s[i + 3..], n, true);
  }

  lemma {:induction false} StaysOpen(s: Bytes, t: Bytes, lim: Limits, depth: nat)
    requires ParseValue(s, lim, Unlimited, depth).NeedMore? && ParseValue(s + t, lim, Unlimited, depth).Ok?
    ensures Begun(s, lim, depth, true)
    decreases |s|, 0
  {
    hide Header, ReadLine, FindLine, NoLine, OpenLine, BegunAll, ParseElems;
    var h := ReadHead(s, lim, depth);
    if h.Elements? {
      hide ReadHead;
      ReadHeadExtend(s, t, lim, depth);
      ArrayHeader(s, lim, depth);
      assert (s + t)[h.length..] == s[h.length..] + t;
      StayOpen(s[h.length..], t, h.count, lim, depth + 1);
    } else if s != [] && FindLine(s[1..]).None? {
      NoLineIff(s[1..]);
      FirstLineOpen(s, t, lim, depth);
    } else if s != [] {
      BodyStaysOpen(s, t, lim, depth);
    }
  }

  lemma {:induction false} StayOpen(s: Bytes, t: Bytes, n: nat, lim: Limits, depth: nat)
    requires ParseElems(s, n, lim, Unlimited, depth).NeedMore? && ParseElems(s + t, n, lim, Unlimited, depth).Ok?
    ensures BegunAll(s, n, lim, depth, true)
    decreases |s|, 1
  {
    hide ParseValue, Spells, Within, Begun;
    var r := ParseValue(s, lim, Unlimited, depth);
    if r.NeedMore? {
      StaysOpen(s, t, lim, depth);
    } else {
      ParseValueExtend(s, t, lim, Unlimited, depth);
      ParsedIsSpelled(s, lim, depth);
      assert (s + t)[r.consumed..] == s[r.consumed..] + t && r.consumed > 0;
      StayOpen(s[r.consumed..], t, n - 1, lim, depth);
    }
  }

  // ----- an open text can be completed -----

  const NOUGHT: Bytes := [COLON, ZERO, CR, LF]

  function Noughts(n: nat): Bytes { if n == 0 then [] else NOUGHT + Noughts(n - 1) }

  lemma {:induction false} NoughtsAreSpelled(n: nat, lim: Limits, depth: nat) returns (vs: seq<Value>)
    ensures |vs| == n && SpellsAll(Noughts(n), vs) && AllWithin(vs, lim, depth)
  {
    vs := [];
    if n > 0 {
      var more := NoughtsAreSpelled(n - 1, lim, depth);
      vs := [Integer(0)] + more;
      var s := Noughts(n);
      NoughtIsZero();
      assert s[..4] == NOUGHT && s[4..] == Noughts(n - 1) && vs[1..] == more;
      assert Spells(s[..4], vs[0]) && SpellsAll(s[4..], vs[1..]);
    }
  }

  lemma NoughtIsZero()
    ensures Spells(NOUGHT, Integer(0))
  {
    assert NOUGHT[1..2] == [ZERO] && Worth([ZERO][1..]) == 0;
  }

  /** An open numeral becomes a header line when the digits and the end of the line follow. */
  lemma NumberCloses(kind: Byte, p: Bytes, digits: Bytes) returns (more: Bytes, n: int)
    requires NumberBegun(p) && AllDigits(digits) && (Ended(p) ==> digits == []) && Unsigned(Line(p)) + digits != []
    ensures Header([kind] + p + more, kind, n) && AllDigits(Unsigned(Line(p)) + digits)
    ensures var worth := Worth(Unsigned(Line(p)) + digits);
            n == if Line(p) != [] && Line(p)[0] == MINUS then 0 - worth as int else worth
  {
    hide Worth, Header, AllDigits;
    var line := Line(p) + digits;
    DigitsMore(Line(p), digits);
    more := if Ended(p) then [LF] else digits + CRLF;
    n := if line[0] == MINUS then 0 - Worth(Unsigned(line)) as int else Worth(Unsigned(line));
    assert [kind] + p + more == [kind] + line + CRLF;
    NumeralMakesHeader(kind, line, n);
  }

  lemma DigitsMore(a: Bytes, digits: Bytes)
    requires AllDigits(Unsigned(a)) && AllDigits(digits)
    ensures Unsigned(a + digits) == Unsigned(a) + digits && AllDigits(Unsigned(a) + digits)
    ensures a + digits != [] ==> ((a + digits)[0] == MINUS <==> a != [] && a[0] == MINUS)
  {
  }

  lemma NumeralMakesHeader(kind: Byte, line: Bytes, n: int)
    requires Numeral(line, n)
    ensures Header([kind] + line + CRLF, kind, n)
  {
    hide Numeral;
    var s := [kind] + line + CRLF;
    assert s[1..|s| - 2] == line;
  }

  const ONE: Byte := 49

  /** An open numeral is closed as it stands, or with a nought if no digit has come. */
  lemma NumberEnds(kind: Byte, p: Bytes) returns (more: Bytes, n: int)
    requires NumberBegun(p)
    ensures Header([kind] + p + more, kind, n)
    ensures var worth := Worth(Unsigned(Line(p)));
            n == if Line(p) != [] && Line(p)[0] == MINUS then 0 - worth as int else worth
  {
    var digits := Unsigned(Line(p));
    more, n := NumberCloses(kind, p, if digits == [] then [ZERO] else []);
    assert digits + [] == digits && Worth([ZERO][1..]) == 0 && [] + [ZERO] == [ZERO];
  }

  lemma NullCloses(p: Bytes) returns (more: Bytes)
    requires NullBegun(p)
    ensures Header([STAR] + p + more, STAR, -1)
  {
    if Line(p) == [] {
      more := [MINUS, ONE] + CRLF;
      assert ([STAR] + p + more)[1..3] == [MINUS, ONE] && [MINUS, ONE][1..] == [ONE] && Worth([ONE][1..]) == 0;
    } else {
      var digits, n := Unsigned(Line(p)), 0;
      if Worth(digits) == 0 { WorthAppend(digits, ONE); }
      more, n := NumberCloses(STAR, p, if Worth(digits) == 0 then [ONE] else []);
      assert digits + [] == digits;
    }
  }

  /** What a header is followed by: nothing, a payload of noughts, or elements that are all nought. */
  lemma HeaderCompletes(h: Bytes, kind: Byte, n: int, lim: Limits, depth: nat) returns (t: Bytes, v: Value)
    requires Header(h, kind, n) && (kind == DOLLAR || kind == STAR)
    requires n == -1 || (0 <= n && if kind == DOLLAR then n <= lim.maxBulk else n <= lim.maxArray && depth <= lim.maxDepth)
    ensures Spells(h + t, v) && Within(v, lim, depth)
  {
    hide Header, Noughts;
    if n == -1 {
      t, v := [], Null;
      assert h + t == h;
    } else if kind == DOLLAR {
      var text := seq(n, _ => ZERO);
      t, v := text + CRLF, Bulk(text);
      assert (h + t)[..|h|] == h && (h + t)[|h|..] == t;
    } else {
      var vs := NoughtsAreSpelled(n, lim, depth + 1);
      t, v := Noughts(n), Array(vs);
      assert (h + t)[..|h|] == h && (h + t)[|h|..] == t;
    }
  }

  lemma LineCompletes(kind: Byte, p: Bytes, lim: Limits, depth: nat) returns (t: Bytes, v: Value)
    requires OpenLine(kind, p, lim, depth) && kind in {PLUS, MINUS, COLON, DOLLAR, STAR}
    ensures Spells([kind] + p + t, v) && Within(v, lim, depth)
  {
    hide Worth, Header, NumberBegun;
    if kind == PLUS || kind == MINUS {
      t := if Ended(p) then [LF] else CRLF;
      v := if kind == PLUS then Simple(Line(p)) else Error(Line(p));
      assert [kind] + p + t == [kind] + Line(p) + CRLF;
    } else {
      var more, n, tail := [], -1, [];
      if kind == STAR && depth > lim.maxDepth { more := NullCloses(p); }
      else { more, n := NumberEnds(kind, p); }
      if kind == COLON { t, v := more, Integer(n); }
      else {
        tail, v := HeaderCompletes([kind] + p + more, kind, n, lim, depth);
        t := more + tail;
        assert [kind] + p + t == [kind] + p + more + tail;
      }
    }
  }

  lemma BodyCompletes(s: Bytes, i: nat, n: nat, lim: Limits) returns (t: Bytes, v: Value)
    requires i <= |s| && Header(s[..i], DOLLAR, n) && n <= lim.maxBulk && BodyBegun(s[i..], n, true)
    ensures Spells(s + t, v) && forall depth :: Within(v, lim, depth)
  {
    hide Header;
    var body := s[i..];
    var missing := if |body| <= n then n - |body| else 0;
    var text := if |body| <= n then body + seq(missing, _ => ZERO) else body[..n];
    t := if |body| <= n then seq(missing, _ => ZERO) + CRLF else [LF];
    v := Bulk(text);
    assert (s + t)[..i] == s[..i] && (s + t)[i..] == text + CRLF;
  }

  lemma {:induction false} Completes(s: Bytes, lim: Limits, depth: nat) returns (t: Bytes, v: Value)
    requires Begun(s, lim, depth, true)
    ensures Spells(s + t, v) && Within(v, lim, depth)
    decreases |s|, 0
  {
    hide Header, NoLine, BegunAll, OpenLine;
    if s == [] {
      NoughtIsZero();
      t, v := NOUGHT, Integer(0);
      assert s + t == NOUGHT;
    } else if s[0] in {PLUS, MINUS, COLON, DOLLAR, STAR} && NoLine(s[1..]) && OpenLine(s[0], s[1..], lim, depth) {
      t, v := LineCompletes(s[0], s[1..], lim, depth);
      assert s == [s[0]] + s[1..];
    } else if i, n: nat :| 0 <= i <= |s| && Header(s[..i], DOLLAR, n) && n <= lim.maxBulk && BodyBegun(s[i..], n, true) {
      t, v := BodyCompletes(s, i, n, lim);
    } else {
      var i, n: nat :| 0 <= i <= |s| && Header(s[..i], STAR, n) && n <= lim.maxArray && depth <= lim.maxDepth
                       && BegunAll(s[i..], n, lim, depth + 1, true);
      HeaderLength(s[..i], STAR, n);
      var vs;
      t, vs := AllComplete(s[i..], n, lim, depth + 1);
      v := Array(vs);
      assert (s + t)[..i] == s[..i] && (s + t)[i..] == s[i..] + t;
    }
  }

  lemma {:induction false} AllComplete(s: Bytes, n: nat, lim: Limits, depth: nat) returns (t: Bytes, vs: seq<Value>)
    requires BegunAll(s, n, lim, depth, true)
    ensures |vs| == n && SpellsAll(s + t, vs) && AllWithin(vs, lim, depth)
    decreases |s|, 1
  {
    hide Begun, Spells, Within, Noughts;
    var k, first, more := |s|, Null, [];
    if Begun(s, lim, depth, true) {
      var end;
      end, first := Completes(s, lim, depth);
      more := NoughtsAreSpelled(n - 1, lim, depth);
      t, k := end + Noughts(n - 1), |s + end|;
      assert (s + t)[..k] == s + end && (s + t)[k..] == Noughts(n - 1);
    } else {
      k, first :| 0 < k <= |s| && Spells(s[..k], first) && Within(first, lim, depth) && BegunAll(s[k..], n - 1, lim, depth, true);
      t, more := AllComplete(s[k..], n - 1, lim, depth);
      assert (s + t)[..k] == s[..k] && (s + t)[k..] == s[k..] + t;
    }
    vs := [first] + more;
    assert vs[1..] == more;
  }

  /**
   Waiting for more is worth while exactly if the last line or payload shows no byte out of place: then,
   and only then, the bytes are the beginning of the text of some value within the limits.
   */
  lemma WaitingPaysIfOpen(w: Bytes, lim: Limits)
    requires UnpackOne(w, Unlimited, lim).NeedMore?
    ensures (exists t, v :: Spells(w + t, v) && Within(v, lim, 1)) <==> Begun(w, lim, 1, true)
  {
    hide ParseValue, Begun, Spells, Within;
    if Begun(w, lim, 1, true) {
      var t, v := Completes(w, lim, 1);
    }
    if t, v :| Spells(w + t, v) && Within(v, lim, 1) {
      SpelledIsParsed(w + t, v, [], lim, 1);
      assert w + t + [] == w + t;
      StaysOpen(w, t, lim, 1);
    }
  }

  /** It need not be: a line feed inside a simple string is noticed only at the end of the line. */
  lemma WaitingInVain(lim: Limits, t: Bytes, v: Value)
    ensures UnpackOne([PLUS, LF], Unlimited, lim).NeedMore? && !(Spells([PLUS, LF] + t, v) && Within(v, lim, 1))
  {
    hide Spells, Within, Begun;
    var w := [PLUS, LF];
    assert w[1..] == [LF] && FindLine([LF]).None?;
    if Spells(w + t, v) && Within(v, lim, 1) {
      WaitingPaysIfOpen(w, lim);
      NotOpen(lim);
    }
  }

  lemma NotOpen(lim: Limits)
    ensures !Begun([PLUS, LF], lim, 1, true)
  {
    var w := [PLUS, LF];
    assert w[1..] == [LF] && Line([LF]) == [LF];
  }

  /** What is neither spelled nor begun is malformed, and nothing else is. */
  lemma RejectsTheRest(w: Bytes, lim: Limits)
    ensures UnpackOne(w, Unlimited, lim).Malformed?
            <==> !Begun(w, lim, 1, false) && forall c, v :: 0 <= c <= |w| && Within(v, lim, 1) ==> !Spells(w[..c], v)
  {
    hide ParseValue, Begun, Spells, Within;
    UnpackUnlimited(w, lim);
    WaitsForWhatIsBegun(w, lim);
    var r := UnpackOne(w, Unlimited, lim);
    if r.Ok? { AcceptsWhatIsSpelled(w, lim, r.consumed, r.value); }
    if c, v :| 0 <= c <= |w| && Within(v, lim, 1) && Spells(w[..c], v) { AcceptsWhatIsSpelled(w, lim, c, v); }
  }
}
