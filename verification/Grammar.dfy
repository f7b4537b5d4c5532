/**
 What the parser of `Resp` accepts, said without it: which bytes spell which value, by the sections
 "Simple strings", "Simple errors", "Integers", "Bulk strings", "Null bulk strings", "Arrays" and
 "Null arrays" of the RESP specification.
 */
module Grammar {
  import opened Resp
  import opened Framing
  import opened RoundTrip

  // ----- numbers -----

  function PowerOfTen(k: nat): nat { if k == 0 then 1 else 10 * PowerOfTen(k - 1) }

  /** What a row of digits is worth: each digit by its place. */
  function Worth(s: Bytes): nat
    requires AllDigits(s)
  {
    if s == [] then 0 else (s[0] - ZERO) as nat * PowerOfTen(|s| - 1) + Worth(s[1..])
  }

  predicate Signed(line: Bytes) { line != [] && (line[0] == PLUS || line[0] == MINUS) }

  function Unsigned(line: Bytes): Bytes { if Signed(line) then line[1..] else line }

  /** The line is a decimal numeral for `n`, with or without a sign. */
  predicate Numeral(line: Bytes, n: int) {
    && Unsigned(line) != [] && AllDigits(Unsigned(line))
    && n == if line[0] == MINUS then 0 - Worth(Unsigned(line)) as int else Worth(Unsigned(line))
  }

  // ----- values -----

  /** A whole line of the given kind that announces the number `n`. */
  predicate Header(s: Bytes, kind: Byte, n: int) {
    |s| >= 3 && s[0] == kind && s[|s| - 2] == CR && s[|s| - 1] == LF && Numeral(s[1..|s| - 2], n)
  }

  /** The bytes are, from first to last, a text of the value. */
  ghost predicate Spells(s: Bytes, v: Value)
    decreases v
  {
    match v
    case Simple(text) => s == [PLUS] + text + CRLF && Clean(text)
    case Error(text) => s == [MINUS] + text + CRLF && Clean(text)
    case Integer(n) => Header(s, COLON, n)
    case Null => Header(s, DOLLAR, -1) || Header(s, STAR, -1)
    case Bulk(text) => exists i :: 0 <= i <= |s| && Header(s[..i], DOLLAR, |text|) && s[i..] == text + CRLF
    case Array(vs) => exists i :: 0 <= i <= |s| && Header(s[..i], STAR, |vs|) && SpellsAll(s[i..], vs)
  }

  /** The texts of the values, one after the other. */
  ghost predicate SpellsAll(s: Bytes, vs: seq<Value>)
    decreases vs
  {
    if vs == [] then s == []
    else exists k :: 0 <= k <= |s| && Spells(s[..k], vs[0]) && SpellsAll(s[k..], vs[1..])
  }

  // ----- the numbers of the parser -----

  lemma TenFold(x: nat, p: nat)
    ensures x * (10 * p) == 10 * (x * p)
  {
  }

  lemma {:induction false} WorthAppend(s: Bytes, d: Byte)
    requires AllDigits(s) && IsDigit(d)
    ensures AllDigits(s + [d]) && Worth(s + [d]) == 10 * Worth(s) + (d - ZERO) as nat
  {
    if s == [] {
      assert s + [d] == [d] && Worth([d][1..]) == 0;
    } else {
      WorthAppend(s[1..], d);
      assert (s + [d])[1..] == s[1..] + [d];
      TenFold((s[0] - ZERO) as nat, PowerOfTen(|s| - 1));
    }
  }

  lemma {:induction false} WorthIsDigits(s: Bytes)
    requires AllDigits(s)
    ensures Worth(s) == Digits(s)
  {
    if s != [] {
      var init, d := s[..|s| - 1], s[|s| - 1];
      WorthIsDigits(init);
      WorthAppend(init, d);
      assert s == init + [d];
    }
  }

  lemma NumeralIff(line: Bytes, n: int)
    ensures Numeral(line, n) <==> ParseNumber(line) == Some(n)
  {
    hide Worth, Digits;
    if AllDigits(Unsigned(line)) { WorthIsDigits(Unsigned(line)); }
    if line != [] { assert Signed(line) ==> !IsDigit(line[0]); }
  }

  lemma NumeralIsOneLine(line: Bytes, n: int)
    requires Numeral(line, n)
    ensures CR !in line
  {
    hide Worth;
    assert line == (if Signed(line) then [line[0]] else []) + Unsigned(line);
  }

  /** A header in front of anything is read as the line it is. */
  lemma HeaderIsRead(h: Bytes, kind: Byte, n: int, rest: Bytes, lim: Limits, depth: nat)
    requires Header(h, kind, n) && kind in {COLON, DOLLAR, STAR}
    ensures ReadHead(h + rest, lim, depth) == ReadLine(kind, h[1..|h| - 2], |h|, rest, lim, depth)
    ensures ParseNumber(h[1..|h| - 2]) == Some(n)
  {
    hide ReadLine, ReadHead, Numeral;
    var line := h[1..|h| - 2];
    NumeralIsOneLine(line, n);
    NumeralIff(line, n);
    assert h + rest == [kind] + line + CRLF + rest;
    HeadLine(kind, line, rest, lim, depth);
  }

  // ----- everything spelled is parsed -----

  lemma {:induction false} SpelledIsParsed(p: Bytes, v: Value, rest: Bytes, lim: Limits, depth: nat)
    requires Spells(p, v) && Within(v, lim, depth)
    ensures ParseValue(p + rest, lim, Unlimited, depth) == Ok(|p|, v, Below(v))
    decreases v
  {
    hide FindLine, ParseNumber, ReadHead, Header, SpellsAll, ParseElems;
    match v
    case Simple(text) =>
      HeadLine(PLUS, text, rest, lim, depth);
    case Error(text) =>
      HeadLine(MINUS, text, rest, lim, depth);
    case Integer(n) =>
      HeaderIsRead(p, COLON, n, rest, lim, depth);
    case Null =>
      HeaderIsRead(p, if Header(p, DOLLAR, -1) then DOLLAR else STAR, -1, rest, lim, depth);
    case Bulk(text) =>
      BulkIsRead(p, text, rest, lim, depth);
    case Array(vs) =>
      var i :| 0 <= i <= |p| && Header(p[..i], STAR, |vs|) && SpellsAll(p[i..], vs);
      ArrayIsRead(p, i, |vs|, rest, lim, depth);
      SpelledAreParsed(p[i..], vs, rest, lim, depth + 1);
  }

  lemma BulkIsRead(p: Bytes, text: Bytes, rest: Bytes, lim: Limits, depth: nat)
    requires Spells(p, Bulk(text)) && |text| <= lim.maxBulk
    ensures ReadHead(p + rest, lim, depth) == Scalar(Ok(|p|, Bulk(text), 0))
  {
    hide ReadHead, Header;
    var i :| 0 <= i <= |p| && Header(p[..i], DOLLAR, |text|) && p[i..] == text + CRLF;
    hide Spells;
    BodyIsRead(p[..i], text, rest, lim, depth);
    Regroup(p, i, text, rest);
  }

  lemma Regroup(p: Bytes, i: nat, text: Bytes, rest: Bytes)
    requires i <= |p| && p[i..] == text + CRLF
    ensures p + rest == p[..i] + (text + CRLF + rest) && |p| == |p[..i]| + |text| + 2
  {
    assert p == p[..i] + p[i..];
  }

  lemma BodyIsRead(h: Bytes, text: Bytes, rest: Bytes, lim: Limits, depth: nat)
    requires Header(h, DOLLAR, |text|) && |text| <= lim.maxBulk
    ensures ReadHead(h + (text + CRLF + rest), lim, depth) == Scalar(Ok(|h| + |text| + 2, Bulk(text), 0))
  {
    hide ParseNumber, ReadHead, Header;
    var tail := text + CRLF + rest;
    HeaderIsRead(h, DOLLAR, |text|, tail, lim, depth);
    assert tail[..|text|] == text && tail[|text|] == CR && tail[|text| + 1] == LF;
  }

  lemma ArrayIsRead(p: Bytes, i: nat, n: nat, rest: Bytes, lim: Limits, depth: nat)
    requires i <= |p| && Header(p[..i], STAR, n) && n <= lim.maxArray && depth <= lim.maxDepth
    ensures ReadHead(p + rest, lim, depth) == Elements(i, n) && (p + rest)[i..] == p[i..] + rest
  {
    hide FindLine, ParseNumber, ReadHead, Header;
    var tail := p[i..] + rest;
    assert p + rest == p[..i] + tail && (p + rest)[i..] == tail;
    HeaderIsRead(p[..i], STAR, n, tail, lim, depth);
  }

  lemma {:induction false} SpelledAreParsed(p: Bytes, vs: seq<Value>, rest: Bytes, lim: Limits, depth: nat)
    requires SpellsAll(p, vs) && AllWithin(vs, lim, depth)
    ensures ParseElems(p + rest, |vs|, lim, Unlimited, depth) == Ok(|p|, vs, BelowAll(vs))
    decreases vs
  {
    hide ParseValue, Spells, Below, Within;
    if vs != [] {
      var k :| 0 <= k <= |p| && Spells(p[..k], vs[0]) && SpellsAll(p[k..], vs[1..]);
      var tail := p[k..] + rest;
      assert p + rest == p[..k] + tail && (p + rest)[k..] == tail;
      SpelledIsParsed(p[..k], vs[0], tail, lim, depth);
      SpelledAreParsed(p[k..], vs[1..], rest, lim, depth);
      assert vs == [vs[0]] + vs[1..];
    }
  }

  // ----- everything parsed is spelled -----

  /** A line found and a number in it make a header. */
  lemma LineIsHeader(s: Bytes, i: nat, n: int)
    requires s != [] && FindLine(s[1..]) == Some(i) && ParseNumber(s[1..i + 1]) == Some(n)
    ensures Header(s[..i + 3], s[0], n)
  {
    hide FindLine, Numeral, ParseNumber;
    NumeralIff(s[1..i + 1], n);
    assert s[1..][i] == s[i + 1] && s[1..][i + 1] == s[i + 2];
    assert s[..i + 3][1..i + 1] == s[1..i + 1];
  }

  lemma ScalarIsSpelled(s: Bytes, lim: Limits, depth: nat)
    requires ReadHead(s, lim, depth).Scalar? && ReadHead(s, lim, depth).result.Ok?
    ensures var r := ReadHead(s, lim, depth).result; Spells(s[..r.consumed], r.value) && Within(r.value, lim, depth) && Below(r.value) == 0
  {
    hide FindLine, ParseNumber, Header;
    var i := FindLine(s[1..]).value;
    var kind, line, rest := s[0], s[1..i + 1], s[i + 3..];
    var r := ReadHead(s, lim, depth).result;
    assert s[1..][i] == s[i + 1] && s[1..][i + 1] == s[i + 2];
    if kind == PLUS || kind == MINUS {
      assert s[..i + 3] == [kind] + line + CRLF;
    } else {
      var n := ParseNumber(line).value;
      LineIsHeader(s, i, n);
      if r.value.Bulk? {
        var p := s[..r.consumed];
        assert p[..i + 3] == s[..i + 3] && p[i + 3..] == rest[..n] + CRLF;
      }
    }
  }

  lemma {:induction false} ParsedIsSpelled(s: Bytes, lim: Limits, depth: nat)
    requires ParseValue(s, lim, Unlimited, depth).Ok?
    ensures var r := ParseValue(s, lim, Unlimited, depth);
            Spells(s[..r.consumed], r.value) && Within(r.value, lim, depth) && r.used == Below(r.value)
    decreases |s|, 0
  {
    hide ReadHead, Header;
    var h := ReadHead(s, lim, depth);
    if h.Scalar? {
      ScalarIsSpelled(s, lim, depth);
    } else {
      ArrayHeader(s, lim, depth);
      ParsedAreSpelled(s[h.length..], h.count, lim, depth + 1);
      var r, e := ParseValue(s, lim, Unlimited, depth), ParseElems(s[h.length..], h.count, lim, Unlimited, depth + 1);
      var p := s[..r.consumed];
      assert p[..h.length] == s[..h.length] && p[h.length..] == s[h.length..][..e.consumed];
    }
  }

  lemma ArrayHeader(s: Bytes, lim: Limits, depth: nat)
    requires ReadHead(s, lim, depth).Elements?
    ensures var h := ReadHead(s, lim, depth);
            Header(s[..h.length], STAR, h.count) && h.count <= lim.maxArray && depth <= lim.maxDepth
  {
    hide FindLine, ParseNumber, Header;
    var i := FindLine(s[1..]).value;
    LineIsHeader(s, i, ParseNumber(s[1..i + 1]).value);
  }

  lemma {:induction false} ParsedAreSpelled(s: Bytes, n: nat, lim: Limits, depth: nat)
    requires ParseElems(s, n, lim, Unlimited, depth).Ok?
    ensures var r := ParseElems(s, n, lim, Unlimited, depth);
            |r.value| == n && SpellsAll(s[..r.consumed], r.value) && AllWithin(r.value, lim, depth) && r.used == BelowAll(r.value)
    decreases |s|, 1
  {
    hide ParseValue, Spells, Below, Within;
    if n > 0 {
      var r := ParseValue(s, lim, Unlimited, depth);
      ParsedIsSpelled(s, lim, depth);
      ParsedAreSpelled(s[r.consumed..], n - 1, lim, depth);
      var e, all := ParseElems(s[r.consumed..], n - 1, lim, Unlimited, depth), ParseElems(s, n, lim, Unlimited, depth);
      var p := s[..all.consumed];
      assert p[..r.consumed] == s[..r.consumed] && p[r.consumed..] == s[r.consumed..][..e.consumed];
      assert all.value[1..] == e.value;
    }
  }

  /** The parser accepts exactly the texts of values within the limits, and reads them for what they say. */
  lemma AcceptsWhatIsSpelled(w: Bytes, lim: Limits, c: nat, v: Value)
    ensures (UnpackOne(w, Unlimited, lim).Ok? && UnpackOne(w, Unlimited, lim).consumed == c && UnpackOne(w, Unlimited, lim).value == v)
            <==> c <= |w| && Spells(w[..c], v) && Within(v, lim, 1)
  {
    hide ParseValue, Spells, Within;
    if UnpackOne(w, Unlimited, lim).Ok? { ParsedIsSpelled(w, lim, 1); }
    if c <= |w| && Spells(w[..c], v) && Within(v, lim, 1) {
      SpelledIsParsed(w[..c], v, w[c..], lim, 1);
      assert w[..c] + w[c..] == w;
    }
  }
}
