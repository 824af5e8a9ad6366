/**
 The incremental decoder that shows the text of a half-received JSON reply. Strings are sequences
 of code points, because the decoder can produce lone surrogates, which a char cannot hold.
 */
module StreamDecoder {
  import opened Contracts

  type Text = seq<int>

  const QUOTE := 34
  const BACKSLASH := 92
  const COLON := 58
  const LOWER_U := 117
  const MAX_CODE_POINT := 0x10FFFF

  /** The key "text" with its quotes. */
  const MARKER: Text := [34, 116, 101, 120, 116, 34]

  /** The characters that may follow a backslash, apart from u, and what they stand for. */
  const ESCAPES: map<int, int> := map[92 := 92, 34 := 34, 47 := 47, 98 := 8, 102 := 12, 110 := 10, 114 := 13, 116 := 9]

  predicate OccursAt(raw: Text, pattern: Text, i: nat) {
    i + |pattern| <= |raw| && raw[i..i + |pattern|] == pattern
  }

  /** The first occurrence of pattern at or after start. */
  function Find(raw: Text, pattern: Text, start: nat): (r: Option<nat>)
    ensures r.Some? ==> start <= r.value && OccursAt(raw, pattern, r.value)
    ensures forall i: nat :: start <= i && (r.Some? ==> i < r.value) ==> !OccursAt(raw, pattern, i)
    decreases |raw| - start
  {
    if start + |pattern| > |raw| then None
    else if raw[start..start + |pattern|] == pattern then Some(start)
    else Find(raw, pattern, start + 1)
  }

  /**
   The code point written at index i and the index after it, unless the closing quote, the end of
   the input, or an incomplete or malformed escape is there. parse reads four characters as a
   base-16 integer, if it can.
   */
  function DecodeOne(raw: Text, i: nat, parse: Text -> Option<int>): (r: Option<(int, nat)>)
    ensures r.Some? ==> i < r.value.1 <= |raw|
  {
    if i >= |raw| || raw[i] == QUOTE then None
    else if raw[i] != BACKSLASH then Some((raw[i], i + 1))
    else if i + 1 >= |raw| then None
    else if raw[i + 1] == LOWER_U then
      if i + 6 > |raw| then None
      else
        var value := parse(raw[i + 2..i + 6]);
        if value.None? || !(0 <= value.value <= MAX_CODE_POINT) then None else Some((value.value, i + 6))
    else Some((if raw[i + 1] in ESCAPES then ESCAPES[raw[i + 1]] else raw[i + 1], i + 2))
  }

  /** The decoded text from index i on. */
  function Decode(raw: Text, i: nat, parse: Text -> Option<int>): Text
    decreases |raw| - i
  {
    var one := DecodeOne(raw, i, parse);
    if one.None? then [] else [one.value.0] + Decode(raw, one.value.1, parse)
  }

  /** Where the value of the key starts: just after the quote that follows the colon that follows the key. */
  function ValueStart(raw: Text): Option<nat> {
    var key := Find(raw, MARKER, 0);
    if key.None? then None
    else
      var colon := Find(raw, [COLON], key.value + |MARKER|);
      if colon.None? then None
      else
        var quote := Find(raw, [QUOTE], colon.value + 1);
        if quote.None? then None else Some(quote.value + 1)
  }

  function Visible(raw: Text, parse: Text -> Option<int>): Text {
    var start := ValueStart(raw);
    if start.None? then [] else Decode(raw, start.value, parse)
  }

  /** The decoding loop. */
  method StreamingJsonText(raw: Text, parse: Text -> Option<int>) returns (output: Text)
    ensures output == Visible(raw, parse)
  {
    hide Find, Decode;
    output := [];
    var keyStart := Find(raw, MARKER, 0);
    if keyStart.None? { return; }
    var colon := Find(raw, [COLON], keyStart.value + |MARKER|);
    if colon.None? { return; }
    var quote := Find(raw, [QUOTE], colon.value + 1);
    if quote.None? { return; }
    output := DecodeFrom(raw, quote.value + 1, parse);
  }

  method DecodeFrom(raw: Text, start: nat, parse: Text -> Option<int>) returns (output: Text)
    ensures output == Decode(raw, start, parse)
  {
    hide Decode;
    output := [];
    var index := start;
    while index < |raw|
      invariant output + Decode(raw, index, parse) == Decode(raw, start, parse)
      decreases |raw| - index
    {
      AppendOne(output, raw, index, parse);
      var c := raw[index];
      if c == QUOTE { return; }
      if c != BACKSLASH {
        output := output + [c];
        index := index + 1;
        continue;
      }
      if index + 1 >= |raw| { return; }
      var escaped := raw[index + 1];
      if escaped == LOWER_U {
        if index + 6 > |raw| { return; }
        var value := parse(raw[index + 2..index + 6]);
        if value.None? || !(0 <= value.value <= MAX_CODE_POINT) { return; }
        output := output + [value.value];
        index := index + 6;
        continue;
      }
      output := output + [if escaped in ESCAPES then ESCAPES[escaped] else escaped];
      index := index + 2;
    }
    AppendOne(output, raw, index, parse);
  }

  /** One turn of the loop moves one code point from the undecoded to the decoded part. */
  lemma AppendOne(output: Text, raw: Text, i: nat, parse: Text -> Option<int>)
    ensures var one := DecodeOne(raw, i, parse);
            if one.None? then output + Decode(raw, i, parse) == output
            else (output + [one.value.0]) + Decode(raw, one.value.1, parse) == output + Decode(raw, i, parse)
  {
    hide DecodeOne;
  }

  // ----- More input never takes text back -----

  lemma FindStable(p: Text, q: Text, pattern: Text, start: nat)
    requires p <= q && Find(p, pattern, start).Some?
    ensures Find(q, pattern, start) == Find(p, pattern, start)
  {
    var i := Find(p, pattern, start).value;
    assert OccursAt(q, pattern, i);
    var j := Find(q, pattern, start).value;
    assert q[j..j + |pattern|] == p[j..j + |pattern|];
    assert OccursAt(p, pattern, j);
  }

  lemma DecodeOneStable(p: Text, q: Text, i: nat, parse: Text -> Option<int>)
    requires p <= q && DecodeOne(p, i, parse).Some?
    ensures DecodeOne(q, i, parse) == DecodeOne(p, i, parse)
  {
    if i + 6 <= |p| {
      assert p[i + 2..i + 6] == q[i + 2..i + 6];
    }
  }

  lemma {:induction false} DecodeMonotone(p: Text, q: Text, i: nat, parse: Text -> Option<int>)
    requires p <= q
    ensures Decode(p, i, parse) <= Decode(q, i, parse)
    decreases |p| - i
  {
    hide DecodeOne;
    var one := DecodeOne(p, i, parse);
    if one.Some? {
      DecodeOneStable(p, q, i, parse);
      DecodeMonotone(p, q, one.value.1, parse);
    }
  }

  /** The decoded text of a prefix of the input is a prefix of the decoded text of the input. */
  lemma VisibleMonotone(p: Text, q: Text, parse: Text -> Option<int>)
    requires p <= q
    ensures Visible(p, parse) <= Visible(q, parse)
  {
    hide Find, Decode;
    if ValueStart(p).Some? {
      var key := Find(p, MARKER, 0).value;
      var colon := Find(p, [COLON], key + |MARKER|).value;
      FindStable(p, q, MARKER, 0);
      FindStable(p, q, [COLON], key + |MARKER|);
      FindStable(p, q, [QUOTE], colon + 1);
      DecodeMonotone(p, q, ValueStart(p).value, parse);
    }
  }

  // ----- Half-received and malformed strings -----

  /**
   What is decoded at any place, well-formed or not. A quote, the end of the input, an escape that is not
   complete and a backslash and u without a code point end the text; every other character stands for itself, and so
   does a character after a backslash that is none of the standard's escapes.
   */
  lemma DecodeCases(raw: Text, i: nat, parse: Text -> Option<int>)
    ensures var rest := if i < |raw| then raw[i..] else [];
            var ends := rest == [] || rest[0] == 34 || rest == [92];
            && (ends ==> Decode(raw, i, parse) == [])
            && (!ends && rest[0] != 92 ==> Decode(raw, i, parse) == [rest[0]] + Decode(raw, i + 1, parse))
            && (!ends && rest[0] == 92 && rest[1] == 117 ==>
                  if |rest| >= 6 && parse(rest[2..6]).Some? && 0 <= parse(rest[2..6]).value <= 0x10FFFF then
                    Decode(raw, i, parse) == [parse(rest[2..6]).value] + Decode(raw, i + 6, parse)
                  else Decode(raw, i, parse) == [])
            && (!ends && rest[0] == 92 && rest[1] !in {34, 47, 92, 98, 102, 110, 114, 116, 117} ==>
                  Decode(raw, i, parse) == [rest[1]] + Decode(raw, i + 2, parse))
  {
    if i + 6 <= |raw| {
      assert raw[i..][2..6] == raw[i + 2..i + 6];
    }
  }

  // ----- Legal escapings of section 7 of RFC 8259 -----

  predicate IsSurrogate(c: int) {
    0xD800 <= c <= 0xDFFF
  }

  predicate IsHexDigit(c: int) {
    48 <= c <= 57 || 65 <= c <= 70 || 97 <= c <= 102
  }

  function DigitValue(c: int): (v: nat)
    requires IsHexDigit(c)
    ensures v < 16
  {
    if c <= 57 then c - 48 else if c <= 70 then c - 55 else c - 87
  }

  predicate IsHex4(d: Text) {
    |d| == 4 && forall i :: 0 <= i < 4 ==> IsHexDigit(d[i])
  }

  function HexValue(d: Text): (v: nat)
    requires IsHex4(d)
    ensures v < 0x10000
  {
    ((DigitValue(d[0]) * 16 + DigitValue(d[1])) * 16 + DigitValue(d[2])) * 16 + DigitValue(d[3])
  }

  /** How one code point is written: as itself, as a short escape, as \u, or as a \u surrogate pair. */
  datatype Token =
    | Literal(c: int)
    | Short(e: int)
    | Hex(digits: Text)
    | Pair(high: Text, low: Text)

  /** What the standard allows: no bare quote, backslash or control character, and eight short escapes. */
  predicate Legal(t: Token) {
    match t
    case Literal(c) => 0x20 <= c <= 0x10FFFF && c != 34 && c != 92 && !IsSurrogate(c)
    case Short(e) => e in {34, 92, 47, 98, 102, 110, 114, 116}
    case Hex(d) => IsHex4(d) && !IsSurrogate(HexValue(d))
    case Pair(h, l) => IsHex4(h) && IsHex4(l) && 0xD800 <= HexValue(h) <= 0xDBFF && 0xDC00 <= HexValue(l) <= 0xDFFF
  }

  predicate AllLegal(tokens: seq<Token>) {
    forall i :: 0 <= i < |tokens| ==> Legal(tokens[i])
  }

  /** A backslash and one character, or a backslash, the letter u and four digits, once or twice. */
  function Written(t: Token): Text {
    match t
    case Literal(c) => [c]
    case Short(e) => [92, e]
    case Hex(d) => [92, 117] + d
    case Pair(h, l) => [92, 117] + h + [92, 117] + l
  }

  /**
   The code point that the standard gives to the token. The letters b, f, n, r and t stand for
   backspace, form feed, line feed, carriage return and tab; a quote, a backslash and a slash stand
   for themselves.
   */
  function Meaning(t: Token): int
    requires Legal(t)
  {
    match t
    case Literal(c) => c
    case Short(e) =>
      if e == 98 then 0x08 else if e == 102 then 0x0C else if e == 110 then 0x0A
      else if e == 114 then 0x0D else if e == 116 then 0x09 else e
    case Hex(d) => HexValue(d)
    case Pair(h, l) => 0x10000 + (HexValue(h) - 0xD800) * 0x400 + (HexValue(l) - 0xDC00)
  }

  function Encoding(tokens: seq<Token>): Text {
    if tokens == [] then [] else Written(tokens[0]) + Encoding(tokens[1..])
  }

  function Meanings(tokens: seq<Token>): Text
    requires AllLegal(tokens)
  {
    seq(|tokens|, i requires 0 <= i < |tokens| => Meaning(tokens[i]))
  }

  /** What the decoder produces: surrogate pairs stay two code points. */
  function Units(tokens: seq<Token>): Text
    requires AllLegal(tokens)
  {
    if tokens == [] then []
    else (if tokens[0].Pair? then [HexValue(tokens[0].high), HexValue(tokens[0].low)] else [Meaning(tokens[0])])
         + Units(tokens[1..])
  }

  /** parse agrees with base-16 notation on four hexadecimal digits; elsewhere it is arbitrary. */
  ghost predicate ReadsHex(parse: Text -> Option<int>) {
    forall d :: IsHex4(d) ==> parse(d) == Some(HexValue(d))
  }

  lemma DecodeHex(raw: Text, i: nat, d: Text, parse: Text -> Option<int>)
    requires ReadsHex(parse) && IsHex4(d) && i + 6 <= |raw| && raw[i..i + 6] == [BACKSLASH, LOWER_U] + d
    ensures DecodeOne(raw, i, parse) == Some((HexValue(d), i + 6))
  {
    hide HexValue;
    assert raw[i] == raw[i..i + 6][0] && raw[i + 1] == raw[i..i + 6][1];
    assert raw[i + 2..i + 6] == raw[i..i + 6][2..] == d;
    HexValueBound(d);
  }

  lemma HexValueBound(d: Text)
    requires IsHex4(d)
    ensures HexValue(d) < 0x10000
  {
  }

  lemma DecodeToken(before: Text, t: Token, after: Text, parse: Text -> Option<int>)
    requires ReadsHex(parse) && Legal(t)
    ensures Decode(before + Written(t) + after, |before|, parse)
         == (if t.Pair? then [HexValue(t.high), HexValue(t.low)] else [Meaning(t)])
            + Decode(before + Written(t) + after, |before| + |Written(t)|, parse)
  {
    var raw, i := before + Written(t) + after, |before|;
    match t
    case Literal(c) =>
      assert raw[i] == c;
      assert DecodeOne(raw, i, parse) == Some((c, i + 1));
    case Short(e) =>
      assert raw[i] == BACKSLASH && raw[i + 1] == e && e != LOWER_U;
      assert DecodeOne(raw, i, parse) == Some((Meaning(t), i + 2));
    case Hex(d) =>
      hide HexValue, ReadsHex, DecodeOne;
      DecodeHex(raw, i, d, parse);
    case Pair(h, l) => DecodePair(before, h, l, after, parse);
  }

  lemma DecodeTwo(raw: Text, i: nat, a: int, j: nat, b: int, k: nat, parse: Text -> Option<int>)
    requires DecodeOne(raw, i, parse) == Some((a, j)) && DecodeOne(raw, j, parse) == Some((b, k))
    ensures Decode(raw, i, parse) == [a, b] + Decode(raw, k, parse)
  {
    hide DecodeOne;
    assert Decode(raw, j, parse) == [b] + Decode(raw, k, parse);
  }

  lemma DecodePair(before: Text, h: Text, l: Text, after: Text, parse: Text -> Option<int>)
    requires ReadsHex(parse) && IsHex4(h) && IsHex4(l)
    ensures var raw := before + Written(Pair(h, l)) + after;
            Decode(raw, |before|, parse) == [HexValue(h), HexValue(l)] + Decode(raw, |before| + 12, parse)
  {
    hide HexValue, ReadsHex, DecodeOne, Decode, IsHex4;
    var raw, i := before + Written(Pair(h, l)) + after, |before|;
    assert |h| == 4 && |l| == 4 by { HexLength(h); HexLength(l); }
    var u, v := [BACKSLASH, LOWER_U] + h, [BACKSLASH, LOWER_U] + l;
    assert Written(Pair(h, l)) == u + v;
    SliceMiddle(before, u, v, after);
    DecodeHex(raw, i, h, parse);
    DecodeHex(raw, i + 6, l, parse);
    DecodeTwo(raw, i, HexValue(h), i + 6, HexValue(l), i + 12, parse);
  }

  lemma SliceMiddle(a: Text, u: Text, v: Text, b: Text)
    ensures var raw := a + (u + v) + b;
            && raw[|a|..|a| + |u|] == u && raw[|a| + |u|..|a| + |u| + |v|] == v
  {
  }

  lemma HexLength(d: Text)
    requires IsHex4(d)
    ensures |d| == 4
  {
  }

  lemma DecodeStops(raw: Text, i: nat, parse: Text -> Option<int>)
    requires i < |raw| && raw[i] == QUOTE
    ensures Decode(raw, i, parse) == []
  {
  }

  lemma {:induction false} DecodeTokens(before: Text, tokens: seq<Token>, after: Text, parse: Text -> Option<int>)
    requires ReadsHex(parse) && AllLegal(tokens)
    ensures Decode(before + Encoding(tokens) + [QUOTE] + after, |before|, parse) == Units(tokens)
    decreases tokens
  {
    hide ReadsHex, HexValue, Decode, DecodeOne, Legal, Meaning, Written;
    var raw := before + Encoding(tokens) + [QUOTE] + after;
    if tokens == [] {
      DecodeStops(raw, |before|, parse);
    } else {
      var head, rest := Written(tokens[0]), Encoding(tokens[1..]) + [QUOTE] + after;
      assert raw == before + head + rest;
      DecodeToken(before, tokens[0], rest, parse);
      assert raw == (before + head) + Encoding(tokens[1..]) + [QUOTE] + after;
      DecodeTokens(before + head, tokens[1..], after, parse);
    }
  }

  predicate Without(s: Text, c: int) {
    forall i :: 0 <= i < |s| ==> s[i] != c
  }

  /**
   What was received before, then the key (the letters t, e, x and t in quotes), a colon and the value
   in the given spelling in quotes, and any continuation.
   */
  function Reply(opening: Text, ws1: Text, ws2: Text, tokens: seq<Token>, tail: Text): Text {
    opening + [34, 116, 101, 120, 116, 34] + ws1 + [58] + ws2 + [34] + Encoding(tokens) + [34] + tail
  }

  /** The key does not begin inside the opening: quotes and colons may, as in the text of an earlier turn. */
  predicate KeyNotBefore(opening: Text, raw: Text) {
    forall i: nat :: i < |opening| ==> !OccursAt(raw, [34, 116, 101, 120, 116, 34], i)
  }

  /** Nothing but white space, say, between the key and the colon, and between the colon and the value. */
  predicate Gaps(ws1: Text, ws2: Text) {
    Without(ws1, 58) && Without(ws2, 34)
  }

  lemma FindFirst(raw: Text, pattern: Text, start: nat, k: nat)
    requires start <= k && OccursAt(raw, pattern, k)
    requires forall i: nat :: start <= i < k ==> !OccursAt(raw, pattern, i)
    ensures Find(raw, pattern, start) == Some(k)
  {
  }

  lemma FindOne(raw: Text, c: int, start: nat, k: nat)
    requires start <= k < |raw| && raw[k] == c && forall i :: start <= i < k ==> raw[i] != c
    ensures Find(raw, [c], start) == Some(k)
  {
    hide Find;
    assert raw[k..k + 1] == [c];
    forall i: nat | i < |raw| ensures OccursAt(raw, [c], i) ==> raw[i] == c {
      assert raw[i..i + 1][0] == raw[i];
    }
    FindFirst(raw, [c], start, k);
  }

  lemma ReplyValueStart(opening: Text, ws1: Text, ws2: Text, rest: Text)
    requires Gaps(ws1, ws2) && KeyNotBefore(opening, opening + MARKER + ws1 + [COLON] + ws2 + [QUOTE] + rest)
    ensures ValueStart(opening + MARKER + ws1 + [COLON] + ws2 + [QUOTE] + rest)
         == Some(|opening| + |MARKER| + |ws1| + |ws2| + 2)
  {
    hide Find;
    var raw := opening + MARKER + ws1 + [COLON] + ws2 + [QUOTE] + rest;
    var k := |opening|;
    var c := k + |MARKER| + |ws1|;
    var q := c + 1 + |ws2|;
    assert raw[k..k + |MARKER|] == MARKER;
    FindFirst(raw, MARKER, 0, k);
    assert forall i :: k + |MARKER| <= i < c ==> raw[i] == ws1[i - k - |MARKER|];
    FindOne(raw, COLON, k + |MARKER|, c);
    assert forall i :: c + 1 <= i < q ==> raw[i] == ws2[i - c - 1];
    FindOne(raw, QUOTE, c + 1, q);
  }

  /** The decoder returns the units of the value for every legal spelling and every continuation. */
  lemma DecodesUnits(opening: Text, ws1: Text, ws2: Text, tokens: seq<Token>, tail: Text, parse: Text -> Option<int>)
    requires ReadsHex(parse) && AllLegal(tokens)
    requires Gaps(ws1, ws2) && KeyNotBefore(opening, Reply(opening, ws1, ws2, tokens, tail))
    ensures Visible(Reply(opening, ws1, ws2, tokens, tail), parse) == Units(tokens)
  {
    hide ReadsHex, AllLegal, Units, Encoding, Decode, ValueStart, Gaps, KeyNotBefore;
    var before := opening + MARKER + ws1 + [COLON] + ws2 + [QUOTE];
    assert Reply(opening, ws1, ws2, tokens, tail) == before + (Encoding(tokens) + [QUOTE] + tail);
    ReplyValueStart(opening, ws1, ws2, Encoding(tokens) + [QUOTE] + tail);
    assert Reply(opening, ws1, ws2, tokens, tail) == before + Encoding(tokens) + [QUOTE] + tail;
    DecodeTokens(before, tokens, tail, parse);
  }

  /**
   Text received before that cannot contain or begin the key, such as prose with quotes, leaves the
   key where it is; a sufficient test that looks only at the opening.
   */
  lemma ProseBeforeKey(opening: Text, ws1: Text, ws2: Text, tokens: seq<Token>, tail: Text)
    requires forall i :: 0 <= i < |opening| && opening[i] == QUOTE ==>
               exists k :: 1 <= k < |MARKER| && i + k < |opening| && opening[i + k] != MARKER[k]
    ensures KeyNotBefore(opening, Reply(opening, ws1, ws2, tokens, tail))
  {
    hide OccursAt;
    var raw := Reply(opening, ws1, ws2, tokens, tail);
    OpeningFirst(opening, ws1, ws2, tokens, tail);
    hide Reply;
    forall i: nat | i < |opening| ensures !OccursAt(raw, MARKER, i) {
      if opening[i] == QUOTE {
        var k :| 1 <= k < |MARKER| && i + k < |opening| && opening[i + k] != MARKER[k];
        SpelledOtherwise(opening, raw, i, k);
      } else {
        SpelledOtherwise(opening, raw, i, 0);
      }
    }
  }

  lemma OpeningFirst(opening: Text, ws1: Text, ws2: Text, tokens: seq<Token>, tail: Text)
    ensures opening <= Reply(opening, ws1, ws2, tokens, tail)
  {
    hide Encoding;
  }

  lemma SpelledOtherwise(opening: Text, raw: Text, i: nat, k: nat)
    requires opening <= raw && k < |MARKER| && i + k < |opening| && opening[i + k] != MARKER[k]
    ensures !OccursAt(raw, MARKER, i)
  {
    assert i + |MARKER| <= |raw| ==> raw[i..i + |MARKER|][k] == raw[i + k];
  }

  /**
   Once an earlier turn has written the key, the visible text stays with its value, so a later reply
   comes back exactly when it happens to be the same text.
   */
  lemma EarlierKeyWins(opening: Text, ws1: Text, ws2: Text, first: seq<Token>, later: Text, second: seq<Token>,
                       parse: Text -> Option<int>)
    requires ReadsHex(parse) && AllLegal(first) && AllLegal(second)
    requires Gaps(ws1, ws2) && KeyNotBefore(opening, Reply(opening, ws1, ws2, first, later))
    ensures Visible(Reply(opening, ws1, ws2, first, Reply(later, ws1, ws2, second, [])), parse) == Units(first)
    ensures Visible(Reply(opening, ws1, ws2, first, Reply(later, ws1, ws2, second, [])), parse) == Meanings(second)
       <==> Units(first) == Meanings(second)
  {
    hide ReadsHex, AllLegal, Units, Encoding, Meanings, Visible, Gaps;
    var tail := Reply(later, ws1, ws2, second, []);
    SameKeyBefore(opening, ws1, ws2, first, later, tail);
    DecodesUnits(opening, ws1, ws2, first, tail, parse);
  }

  /** An earlier turn has replied A and the later one replies B: the chat shows A. */
  lemma LaterReplyHidden(parse: Text -> Option<int>)
    requires ReadsHex(parse)
    ensures Visible(Reply([123], [], [], [Literal(65)], Reply([125, 123], [], [], [Literal(66)], [125])), parse) == [65]
  {
    ProseBeforeKey([123], [], [], [Literal(65)], Reply([125, 123], [], [], [Literal(66)], [125]));
    DecodesUnits([123], [], [], [Literal(65)], Reply([125, 123], [], [], [Literal(66)], [125]), parse);
    assert Units([Literal(65)]) == [65];
  }

  /** Where the key begins does not depend on what follows it. */
  lemma SameKeyBefore(opening: Text, ws1: Text, ws2: Text, tokens: seq<Token>, a: Text, b: Text)
    requires KeyNotBefore(opening, Reply(opening, ws1, ws2, tokens, a))
    ensures KeyNotBefore(opening, Reply(opening, ws1, ws2, tokens, b))
  {
    hide Encoding;
    var common := opening + MARKER + ws1 + [COLON] + ws2 + [QUOTE] + Encoding(tokens) + [QUOTE];
    var p, q := Reply(opening, ws1, ws2, tokens, a), Reply(opening, ws1, ws2, tokens, b);
    assert p == common + a && q == common + b;
    forall i: nat | i < |opening| ensures !OccursAt(q, MARKER, i) {
      assert p[i..i + |MARKER|] == common[i..i + |MARKER|] == q[i..i + |MARKER|];
      assert !OccursAt(p, MARKER, i);
    }
  }

  function Pairs(tokens: seq<Token>): nat {
    if tokens == [] then 0 else (if tokens[0].Pair? then 1 else 0) + Pairs(tokens[1..])
  }

  lemma {:induction false} UnitsVersusMeanings(tokens: seq<Token>)
    requires AllLegal(tokens)
    ensures |Units(tokens)| == |Meanings(tokens)| + Pairs(tokens)
    ensures Pairs(tokens) == 0 ==> Units(tokens) == Meanings(tokens)
    ensures Pairs(tokens) == 0 <==> forall i :: 0 <= i < |tokens| ==> !tokens[i].Pair?
  {
    if tokens != [] {
      var rest := tokens[1..];
      UnitsVersusMeanings(rest);
      assert forall i :: 0 <= i < |rest| ==> rest[i] == tokens[i + 1];
      assert Meanings(tokens) == [Meaning(tokens[0])] + Meanings(rest);
    }
  }

  /**
   The round trip, with its exact condition: the decoder returns the string that was written if and
   only if the spelling uses no surrogate pair escape.
   */
  lemma RoundTripIff(opening: Text, ws1: Text, ws2: Text, tokens: seq<Token>, tail: Text, parse: Text -> Option<int>)
    requires ReadsHex(parse) && AllLegal(tokens)
    requires Gaps(ws1, ws2) && KeyNotBefore(opening, Reply(opening, ws1, ws2, tokens, tail))
    ensures Visible(Reply(opening, ws1, ws2, tokens, tail), parse) == Meanings(tokens)
       <==> forall i :: 0 <= i < |tokens| ==> !tokens[i].Pair?
  {
    DecodesUnits(opening, ws1, ws2, tokens, tail, parse);
    UnitsVersusMeanings(tokens);
  }

  /** The usual spelling: itself where allowed, otherwise four hexadecimal digits. */
  function Spell(c: int): Token {
    if Legal(Literal(c)) then Literal(c) else Hex([48, 48, HexDigit(c / 16 % 16), HexDigit(c % 16)])
  }

  function HexDigit(v: int): int {
    if v < 10 then 48 + v else 87 + v
  }

  function Spelling(s: Text): seq<Token> {
    seq(|s|, i requires 0 <= i < |s| => Spell(s[i]))
  }

  predicate Ordinary(s: Text) {
    forall i :: 0 <= i < |s| ==> 0 <= s[i] <= MAX_CODE_POINT && !IsSurrogate(s[i])
  }

  /** Every string without surrogates has such a spelling, so the round trip covers all of them. */
  lemma EveryStringComesBack(s: Text, tail: Text, parse: Text -> Option<int>)
    requires ReadsHex(parse) && Ordinary(s)
    ensures AllLegal(Spelling(s)) && Meanings(Spelling(s)) == s
    ensures Visible(Reply([123], [], [32], Spelling(s), tail), parse) == s
  {
    forall i | 0 <= i < |s| ensures Legal(Spell(s[i])) && Meaning(Spell(s[i])) == s[i] && !Spell(s[i]).Pair? {
      SpellMeans(s[i]);
    }
    ProseBeforeKey([123], [], [32], Spelling(s), tail);
    RoundTripIff([123], [], [32], Spelling(s), tail, parse);
  }

  lemma SpellMeans(c: int)
    requires 0 <= c <= MAX_CODE_POINT && !IsSurrogate(c)
    ensures Legal(Spell(c)) && Meaning(Spell(c)) == c && !Spell(c).Pair?
  {
    if !Legal(Literal(c)) {
      assert c < 0x20 || c == QUOTE || c == BACKSLASH;
      var d := [48, 48, HexDigit(c / 16 % 16), HexDigit(c % 16)];
      assert IsHex4(d);
      assert DigitValue(d[2]) == c / 16 && DigitValue(d[3]) == c % 16;
    }
  }
}
