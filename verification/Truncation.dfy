/**
 Bounding a subagent's final output by lines and by UTF-8 bytes. Text is a sequence of code points;
 a surrogate code point has no UTF-8 form, so text holding one cannot be encoded.
 */
module Truncation {
  import opened Contracts

  type Text = seq<int>

  const NEWLINE := 10

  // ----- UTF-8, section 3 of RFC 3629 -----

  predicate Encodable(s: Text) {
    forall i :: 0 <= i < |s| ==> 0 <= s[i] < 0x11_0000 && !(0xD800 <= s[i] < 0xE000)
  }

  function Encode(c: int): (bytes: seq<int>)
    ensures 1 <= |bytes| <= 4
  {
    if c < 0x80 then [c]
    else if c < 0x800 then [0xC0 + c / 0x40, 0x80 + c % 0x40]
    else if c < 0x1_0000 then [0xE0 + c / 0x1000, 0x80 + c / 0x40 % 0x40, 0x80 + c % 0x40]
    else [0xF0 + c / 0x4_0000, 0x80 + c / 0x1000 % 0x40, 0x80 + c / 0x40 % 0x40, 0x80 + c % 0x40]
  }

  predicate Continues(b: int) {
    0x80 <= b <= 0xBF
  }

  /**
   The octet sequences of section 4 of RFC 3629 and the code points they stand for: one to four octets
   by the size of the code point, a first octet that tells how many follow, and six bits in each that follows.
   */
  lemma EncodeIsUtf8(c: int)
    requires 0 <= c < 0x11_0000
    ensures var b := Encode(c);
            if c <= 0x7F then b == [c]
            else if c <= 0x7FF then
              |b| == 2 && 0xC2 <= b[0] <= 0xDF && Continues(b[1]) && c == (b[0] - 0xC0) * 64 + (b[1] - 0x80)
            else if c <= 0xFFFF then
              && |b| == 3 && 0xE0 <= b[0] <= 0xEF && Continues(b[1]) && Continues(b[2])
              && c == ((b[0] - 0xE0) * 64 + (b[1] - 0x80)) * 64 + (b[2] - 0x80)
            else
              && |b| == 4 && 0xF0 <= b[0] <= 0xF4 && Continues(b[1]) && Continues(b[2]) && Continues(b[3])
              && c == (((b[0] - 0xF0) * 64 + (b[1] - 0x80)) * 64 + (b[2] - 0x80)) * 64 + (b[3] - 0x80)
  {
    SixBits(c);
    SixBits(c / 64);
    SixBits(c / 64 / 64);
    Shifts(c);
  }

  lemma SixBits(c: nat)
    ensures c == c / 64 * 64 + c % 64 && 0 <= c % 64 < 64
  {
  }

  lemma Shifts(c: nat)
    ensures c / 0x1000 == c / 64 / 64 && c / 0x4_0000 == c / 64 / 64 / 64
  {
  }

  function Utf8(s: Text): seq<int> {
    if s == [] then [] else Utf8(s[..|s| - 1]) + Encode(s[|s| - 1])
  }

  /** A prefix of the text encodes to a prefix of the bytes, shorter whenever the text is. */
  lemma {:induction false} Utf8OfPrefix(p: Text, s: Text)
    requires p <= s
    ensures Utf8(p) <= Utf8(s) && |Utf8(p)| + (|s| - |p|) <= |Utf8(s)|
  {
    if p != s {
      Utf8OfPrefix(p, s[..|s| - 1]);
    } else {
      assert p == s;
    }
  }

  // ----- Lines -----

  function Split(s: Text): (lines: seq<Text>)
    ensures |lines| >= 1
  {
    if s == [] then [[]]
    else
      var lines, c := Split(s[..|s| - 1]), s[|s| - 1];
      if c == NEWLINE then lines + [[]] else lines[..|lines| - 1] + [lines[|lines| - 1] + [c]]
  }

  function Join(lines: seq<Text>): Text {
    if lines == [] then []
    else if |lines| == 1 then lines[0]
    else Join(lines[..|lines| - 1]) + [NEWLINE] + lines[|lines| - 1]
  }

  lemma JoinSnoc(lines: seq<Text>, last: Text)
    requires lines != []
    ensures Join(lines + [last]) == Join(lines) + [NEWLINE] + last
  {
    assert (lines + [last])[..|lines|] == lines;
  }

  lemma JoinExtend(lines: seq<Text>, c: int)
    requires lines != []
    ensures Join(lines[..|lines| - 1] + [lines[|lines| - 1] + [c]]) == Join(lines) + [c]
  {
    var init, last := lines[..|lines| - 1], lines[|lines| - 1];
    if init != [] {
      JoinSnoc(init, last + [c]);
    }
  }

  lemma SplitOfLast(s: Text)
    ensures s == [] ==> Split(s) == [[]] && Join(Split(s)) == s
    ensures s != [] ==>
              var lines, c := Split(s[..|s| - 1]), s[|s| - 1];
              Split(s) == if c == NEWLINE then lines + [[]] else lines[..|lines| - 1] + [lines[|lines| - 1] + [c]]
  {
  }

  /** Joining the lines of a text gives the text back. */
  lemma {:induction false} JoinOfSplit(s: Text)
    ensures Join(Split(s)) == s
  {
    hide Join, Split;
    SplitOfLast(s);
    if s != [] {
      var t, c := s[..|s| - 1], s[|s| - 1];
      JoinOfSplit(t);
      if c == NEWLINE {
        JoinSnoc(Split(t), []);
      } else {
        JoinExtend(Split(t), c);
      }
    }
  }

  /** The first max lines as one text. */
  function FirstLines(s: Text, max: nat): Text {
    var lines := Split(s);
    Join(if max <= |lines| then lines[..max] else lines)
  }

  /** The first max lines are the longest prefix that has at most max lines. */
  lemma {:induction false} FirstLinesIsLongest(s: Text, max: nat, p: Text)
    requires max >= 1 && p <= s
    ensures FirstLines(s, max) <= s && |Split(FirstLines(s, max))| <= max
    ensures |Split(p)| <= max <==> p <= FirstLines(s, max)
  {
    JoinOfSplit(s);
    var lines := Split(s);
    if |lines| <= max {
      assert lines[..|lines|] == lines;
      LinesOfPrefix(p, s);
    } else {
      var t := s[..|s| - 1];
      assert FirstLines(s, max) == FirstLines(t, max) by {
        var shorter := Split(t);
        assert lines[..max] == shorter[..max];
      }
      FirstLinesIsLongest(t, max, if p == s then t else p);
    }
  }

  lemma {:induction false} LinesOfPrefix(p: Text, s: Text)
    requires p <= s
    ensures |Split(p)| <= |Split(s)|
  {
    if p != s {
      LinesOfPrefix(p, s[..|s| - 1]);
    } else {
      assert p == s;
    }
  }

  lemma {:induction false} LinesOfConcat(a: Text, b: Text)
    ensures |Split(a + b)| == |Split(a)| + |Split(b)| - 1
  {
    if b == [] {
      assert a + b == a;
    } else {
      assert (a + b)[..|a + b| - 1] == a + b[..|b| - 1];
      LinesOfConcat(a, b[..|b| - 1]);
    }
  }

  lemma {:induction false} OneLine(s: Text)
    ensures |Split(s)| == 1 <==> NEWLINE !in s
  {
    if s != [] {
      var init, last := s[..|s| - 1], s[|s| - 1];
      assert s == init + [last];
      OneLine(init);
    }
  }

  // ----- The marker line -----

  function Ascii(s: string): Text {
    seq(|s|, i requires 0 <= i < |s| => s[i] as int)
  }

  function Digits(n: nat): (digits: Text)
    ensures digits != [] && forall i :: 0 <= i < |digits| ==> 48 <= digits[i] <= 57
    ensures digits[0] == 48 <==> n == 0
    ensures n < 10 ==> |digits| == 1
  {
    if n < 10 then [48 + n] else Digits(n / 10) + [48 + n % 10]
  }

  function ReadDigits(digits: Text): int {
    if digits == [] then 0 else 10 * ReadDigits(digits[..|digits| - 1]) + (digits[|digits| - 1] - 48)
  }

  lemma {:induction false} DigitsRead(n: nat)
    ensures ReadDigits(Digits(n)) == n
  {
    if n < 10 {
      assert Digits(n)[..0] == [];
    } else {
      var digits := Digits(n);
      assert digits[..|digits| - 1] == Digits(n / 10);
      DigitsRead(n / 10);
    }
  }

  /** n / d to the nearest integer, ties to the even one. */
  function Nearest(n: nat, d: nat): nat
    requires 0 < d
  {
    var q, r := n / d, n % d;
    if 2 * r < d || (2 * r == d && q % 2 == 0) then q else q + 1
  }

  lemma NearestIsNear(n: nat, d: nat)
    requires 0 < d
    ensures -(d as int) <= 2 * (d * Nearest(n, d) - n) <= d
    ensures 2 * (d * Nearest(n, d) - n) in {d as int, -(d as int)} ==> Nearest(n, d) % 2 == 0
  {
    var q, r := n / d, n % d;
    assert n == d * q + r;
    assert d * (q + 1) == d * q + d;
  }

  const KILO := 1024
  const MEGA := 1024 * 1024

  /** The number of tenths with one decimal, and the unit. */
  function InUnit(value: nat, size: nat, unit: string): Text
    requires 0 < size
  {
    var tenths := Nearest(10 * value, size);
    Digits(tenths / 10) + [46] + Digits(tenths % 10) + Ascii(unit)
  }

  function FormatBytes(value: nat): Text {
    if value < KILO then Digits(value) + Ascii("B")
    else if value < MEGA then InUnit(value, KILO, "KB")
    else InUnit(value, MEGA, "MB")
  }

  /**
   whole and tenth are the digits of a number of units that differs from value by at most half a tenth,
   and if by half a tenth then tenth is even.
   */
  ghost predicate Near(value: nat, size: nat, whole: Text, tenth: Text) {
    && |tenth| == 1
    && var difference := 2 * (size * (10 * ReadDigits(whole) + ReadDigits(tenth)) - 10 * value);
    && -(size as int) <= difference <= size
    && (difference == size || difference == -(size as int) ==> ReadDigits(tenth) % 2 == 0)
  }

  lemma UnitIsNear(value: nat, size: nat, unit: string) returns (whole: Text, tenth: Text)
    requires 0 < size
    ensures InUnit(value, size, unit) == whole + [46] + tenth + Ascii(unit) && Near(value, size, whole, tenth)
  {
    var tenths := Nearest(10 * value, size);
    hide Nearest, Ascii, ReadDigits, Near;
    whole, tenth := Digits(tenths / 10), Digits(tenths % 10);
    DigitsRead(tenths / 10);
    DigitsRead(tenths % 10);
    NearTenths(value, size, whole, tenth);
  }

  lemma NearTenths(value: nat, size: nat, whole: Text, tenth: Text)
    requires 0 < size && |tenth| == 1 && 10 * ReadDigits(whole) + ReadDigits(tenth) == Nearest(10 * value, size)
    ensures Near(value, size, whole, tenth)
  {
    hide Nearest, ReadDigits;
    NearestIsNear(10 * value, size);
    EvenDigit(ReadDigits(whole), ReadDigits(tenth));
  }

  lemma EvenDigit(tens: int, ones: int)
    ensures (10 * tens + ones) % 2 == ones % 2
  {
  }

  /** printed tells the exact value below a kilobyte, else the value to half a tenth of the unit. */
  ghost predicate TellsSize(printed: Text, value: nat) {
    if value < 1024 then exists digits :: printed == digits + Ascii("B") && ReadDigits(digits) == value
    else if value < 1_048_576 then
      exists whole, tenth :: printed == whole + [46] + tenth + Ascii("KB") && Near(value, 1024, whole, tenth)
    else exists whole, tenth :: printed == whole + [46] + tenth + Ascii("MB") && Near(value, 1_048_576, whole, tenth)
  }

  /** What a printed size tells. */
  lemma SizeIsNear(value: nat)
    ensures TellsSize(FormatBytes(value), value)
  {
    hide Near, InUnit, ReadDigits, Digits, Ascii;
    DigitsRead(value);
    var kilos, kiloTenth := UnitIsNear(value, KILO, "KB");
    var megas, megaTenth := UnitIsNear(value, MEGA, "MB");
  }

  /** A missing or empty path is not mentioned. */
  function Mention(artifact: Option<Text>): Text {
    if artifact.None? || artifact.value == [] then [] else Ascii(" - full output at ") + artifact.value
  }

  function MarkerLine(keptLines: nat, lines: nat, keptBytes: nat, bytes: nat, artifact: Option<Text>): Text {
    Ascii("[TRUNCATED: showing first ") + Digits(keptLines) + Ascii(" of ") + Digits(lines) + Ascii(" lines, ")
    + FormatBytes(keptBytes) + Ascii(" of ") + FormatBytes(bytes) + Mention(artifact) + Ascii("]\n")
  }

  /**
   The marker names, in this order, the lines kept, the lines there were, the bytes kept and the bytes
   there were, and the path of the full output unless that is missing or empty.
   */
  lemma MarkerTells(keptLines: nat, lines: nat, keptBytes: nat, bytes: nat, artifact: Option<Text>)
    returns (a: Text, b: Text, c: Text, d: Text)
    ensures MarkerLine(keptLines, lines, keptBytes, bytes, artifact)
         == Ascii("[TRUNCATED: showing first ") + a + Ascii(" of ") + b + Ascii(" lines, ") + c + Ascii(" of ") + d
            + (if artifact.Some? && artifact.value != [] then Ascii(" - full output at ") + artifact.value else [])
            + Ascii("]\n")
    ensures ReadDigits(a) == keptLines && ReadDigits(b) == lines && TellsSize(c, keptBytes) && TellsSize(d, bytes)
  {
    hide Ascii, Digits, FormatBytes, ReadDigits, TellsSize;
    a, b, c, d := Digits(keptLines), Digits(lines), FormatBytes(keptBytes), FormatBytes(bytes);
    DigitsRead(keptLines);
    DigitsRead(lines);
    SizeIsNear(keptBytes);
    SizeIsNear(bytes);
  }

  lemma PlainSize(value: nat)
    ensures NEWLINE !in FormatBytes(value)
  {
  }

  /**
   The marker is one line, so that a reader who drops the first line is left with the body, exactly
   when the path of the full output has no line break.
   */
  lemma MarkerIsOneLine(keptLines: nat, lines: nat, keptBytes: nat, bytes: nat, artifact: Option<Text>, body: Text)
    ensures |Split(MarkerLine(keptLines, lines, keptBytes, bytes, artifact) + body)| == |Split(body)| + 1
       <==> artifact.None? || NEWLINE !in artifact.value
  {
    hide Split, FormatBytes, Digits, Ascii;
    PlainSize(keptBytes);
    PlainSize(bytes);
    PlainWords();
    var before := Ascii("[TRUNCATED: showing first ") + Digits(keptLines) + Ascii(" of ") + Digits(lines)
      + Ascii(" lines, ") + FormatBytes(keptBytes) + Ascii(" of ") + FormatBytes(bytes);
    assert NEWLINE !in before;
    var middle := before + Mention(artifact) + Ascii("]");
    assert NEWLINE in middle <==> artifact.Some? && NEWLINE in artifact.value;
    var marker := MarkerLine(keptLines, lines, keptBytes, bytes, artifact);
    assert marker == middle + [NEWLINE];
    LinesOfConcat(middle, [NEWLINE]);
    LinesOfConcat(marker, body);
    OneBreak();
    OneLine(middle);
  }

  lemma OneBreak()
    ensures |Split([NEWLINE])| == 2
  {
    assert [NEWLINE][..0] == [];
  }

  lemma PlainWords()
    ensures Ascii("]\n") == Ascii("]") + [NEWLINE]
    ensures forall w :: w in ["[TRUNCATED: showing first ", " of ", " lines, ", " - full output at ", "]"] ==>
              NEWLINE !in Ascii(w)
  {
  }

  // ----- Truncation -----

  datatype Bounded = Whole(text: Text) | Shortened(marker: Text, body: Text) | NotEncodable

  predicate Fits(s: Text, maxBytes: nat, maxLines: nat) {
    |Utf8(s)| <= maxBytes && |Split(s)| <= maxLines
  }

  /** The longest prefix of s within both limits. */
  ghost predicate Longest(body: Text, s: Text, maxBytes: nat, maxLines: nat) {
    && body <= s && Fits(body, maxBytes, maxLines)
    && forall p :: p <= s && Fits(p, maxBytes, maxLines) ==> p <= body
  }

  lemma CutIsLongest(output: Text, maxBytes: nat, maxLines: nat, n: nat)
    requires maxLines >= 1
    requires var kept := FirstLines(output, maxLines);
             && n <= |kept| && |Utf8(kept[..n])| <= maxBytes
             && (n < |kept| ==> |Utf8(kept[..n + 1])| > maxBytes)
    ensures Longest(FirstLines(output, maxLines)[..n], output, maxBytes, maxLines)
  {
    var kept := FirstLines(output, maxLines);
    FirstLinesIsLongest(output, maxLines, output);
    FirstLinesIsLongest(output, maxLines, kept[..n]);
    forall p | p <= output && Fits(p, maxBytes, maxLines) ensures p <= kept[..n] {
      FirstLinesIsLongest(output, maxLines, p);
      if |p| > n {
        Utf8OfPrefix(kept[..n + 1], p);
      }
    }
  }

  /** At most one body qualifies, and it is the whole text exactly when the text meets both limits. */
  lemma LongestIsUnique(a: Text, b: Text, s: Text, maxBytes: nat, maxLines: nat)
    requires Longest(a, s, maxBytes, maxLines) && Longest(b, s, maxBytes, maxLines)
    ensures a == b && (a == s <==> Fits(s, maxBytes, maxLines))
  {
    assert a <= b && b <= a;
  }

  /** Wider limits never keep less, and the shortened body passes the same limits unchanged. */
  lemma WiderKeepsMore(a: Text, b: Text, s: Text, bytes: nat, lines: nat, moreBytes: nat, moreLines: nat)
    requires bytes <= moreBytes && lines <= moreLines
    requires Longest(a, s, bytes, lines) && Longest(b, s, moreBytes, moreLines)
    ensures a <= b && Longest(a, a, bytes, lines)
  {
    assert Fits(a, moreBytes, moreLines);
  }

  /** The bytes of the body are the first bytes of the output: no character is cut in two. */
  lemma NoCharacterIsSplit(body: Text, s: Text, maxBytes: nat, maxLines: nat)
    requires Longest(body, s, maxBytes, maxLines) && body != s
    ensures Utf8(body) <= Utf8(s)
    ensures var next := s[..|body| + 1]; |Utf8(next)| > maxBytes || |Split(next)| > maxLines
    ensures |Utf8(body)| + 4 <= maxBytes ==> |Split(body)| == maxLines && s[|body|] == NEWLINE
  {
    Utf8OfPrefix(body, s);
    var next := s[..|body| + 1];
    assert next <= s && !(next <= body) && !Fits(next, maxBytes, maxLines);
    assert next[..|body|] == body;
  }

  method TruncateOutput(output: Text, maxBytes: nat, maxLines: nat, artifact: Option<Text>)
    returns (r: Bounded)
    requires maxLines >= 1
    ensures r.NotEncodable? <==> !Encodable(output)
    ensures r.Whole? <==> Encodable(output) && Fits(output, maxBytes, maxLines)
    ensures r.Whole? ==> r.text == output
    ensures r.Shortened? ==>
              && Longest(r.body, output, maxBytes, maxLines)
              && r.marker == MarkerLine(|Split(r.body)|, |Split(output)|, |Utf8(r.body)|, |Utf8(output)|, artifact)
  {
    hide Longest, Utf8, Split, MarkerLine;
    if !Encodable(output) {
      return NotEncodable;
    }
    var lines := Split(output);
    var byteCount := |Utf8(output)|;
    if byteCount <= maxBytes && |lines| <= maxLines {
      return Whole(output);
    }
    var kept := if maxLines <= |lines| then lines[..maxLines] else lines;
    var result := Join(kept);
    assert result == FirstLines(output, maxLines);
    ghost var n := |result|;
    if |Utf8(result)| > maxBytes {
      var low, high := 0, |result|;
      assert |Utf8(result[..0])| == 0 by { EmptyHasNoBytes(result); }
      assert result[..|result|] == result;
      while low < high
        invariant 0 <= low <= high <= |result|
        invariant |Utf8(result[..low])| <= maxBytes
        invariant high < |result| ==> |Utf8(result[..high + 1])| > maxBytes
      {
        var middle := (low + high + 1) / 2;
        if |Utf8(result[..middle])| <= maxBytes {
          low := middle;
        } else {
          high := middle - 1;
        }
      }
      n := low;
      CutIsLongest(output, maxBytes, maxLines, n);
      result := result[..low];
    } else {
      assert result[..n] == result;
      CutIsLongest(output, maxBytes, maxLines, n);
    }
    r := Shortened(MarkerLine(|Split(result)|, |lines|, |Utf8(result)|, byteCount, artifact), result);
  }

  lemma EmptyHasNoBytes(s: Text)
    ensures Utf8(s[..0]) == []
  {
  }
}
