/** What the scanning half of the stream codec does to whole streams of JSON messages. */
module CodecProofs {
  import opened Basics
  import opened StreamCodec
  import opened JsonText
  import Utf8

  // ---------------------------------------------------------------- tokens inside a message

  /** `s` stands in `buf` at position `i`. */
  predicate At(buf: Bytes, i: nat, s: Bytes) { i + |s| <= |buf| && buf[i..i + |s|] == s }

  lemma AtConcat(buf: Bytes, i: nat, a: Bytes, b: Bytes)
    requires At(buf, i, a + b)
    ensures At(buf, i, a) && At(buf, i + |a|, b)
  {
    var whole := buf[i..i + |a + b|];
    assert buf[i..i + |a|] == whole[..|a|] && buf[i + |a|..i + |a| + |b|] == whole[|a|..];
  }

  /** How deep the wrapping counter stands for. */
  function Level(depth: Depth): nat { if depth < 0 then depth + 0x1_0000_0000 else depth }

  /** There is room for `n` levels more before the counter comes back to zero. */
  predicate Room(st: Scan, n: nat) { Level(st.depth) + n < 0x1_0000_0000 }

  /** Between two tokens of an open message. */
  predicate Open(st: Scan) { st.depth != 0 && !st.inStr && !st.escaped && st.whitespaces == 0 }

  /** Inside a string of an open message. */
  predicate Quoted(st: Scan) { st.depth != 0 && st.inStr && !st.escaped && st.whitespaces == 0 }

  /** Where the first message ends, for a position and the scanner's state but for its whitespace count. */
  type Scanner = (nat, Scan) -> Option<nat>

  function Turn(st: Scan, b: Byte, i: nat): Scan { Feed(st, b, i).(whitespaces := 0) }

  /** Asks for the equation of a scanner at one position. */
  predicate Look(i: nat, st: Scan) { true }

  /** What the byte at `i` makes of a scanner's answer. */
  predicate ScansAt(scan: Scanner, buf: Bytes, i: nat, st: Scan) {
    i < |buf| ==>
      scan(i, st) == var next := Turn(st, buf[i], i);
        if Complete(next.(whitespaces := BlanksIn(buf, i + 1)), i) then Some(i + 1) else scan(i + 1, next)
  }

  /** `scan` is the scanning loop on `buf`, one byte at a time. */
  ghost predicate Scans(scan: Scanner, buf: Bytes) {
    forall i: nat, st: Scan {:trigger Look(i, st)} :: ScansAt(scan, buf, i, st)
  }

  function ScannerOf(buf: Bytes): Scanner {
    (i: nat, st: Scan) => if i <= |buf| then FrameEnd(buf, i, st.(whitespaces := BlanksIn(buf, i))) else None
  }

  lemma FeedCounts(buf: Bytes, i: nat, st: Scan)
    requires i < |buf|
    ensures Feed(st.(whitespaces := BlanksIn(buf, i)), buf[i], i)
         == Turn(st, buf[i], i).(whitespaces := BlanksIn(buf, i + 1))
  {
  }

  lemma ScannerScansAt(buf: Bytes, i: nat, st: Scan)
    ensures ScansAt(ScannerOf(buf), buf, i, st)
  {
    if i < |buf| { FeedCounts(buf, i, st); }
  }

  /** The counter of the loop is the whitespace seen so far. */
  lemma ScannerScans(buf: Bytes)
    ensures Scans(ScannerOf(buf), buf)
    ensures FirstFrame(buf) == ScannerOf(buf)(0, FRESH)
  {
    forall i: nat, st: Scan
      ensures ScansAt(ScannerOf(buf), buf, i, st)
    {
      ScannerScansAt(buf, i, st);
    }
  }

  /** Scanning `s` ends no message and leaves nothing behind. */
  predicate Passed(scan: Scanner, i: nat, st: Scan, s: Bytes) { scan(i, st) == scan(i + |s|, st) }

  lemma AtThree(buf: Bytes, i: nat, a: Bytes, b: Bytes, c: Bytes)
    requires At(buf, i, a + (b + c))
    ensures At(buf, i, a) && At(buf, i + |a|, b) && At(buf, i + |a| + |b|, c)
  {
    AtConcat(buf, i, a, b + c);
    AtConcat(buf, i + |a|, b, c);
  }

  /** A byte that changes neither depth nor string state, in or out of a string. */
  predicate DullIn(st: Scan, b: Byte) {
    b != QUOTE && b != BACKSLASH && (st.inStr || (!IsOpening(b) && !IsClosing(b)))
  }

  lemma {:induction false} PassDull(scan: Scanner, buf: Bytes, i: nat, st: Scan, s: Bytes)
    requires Scans(scan, buf) && At(buf, i, s) && (Open(st) || Quoted(st))
    requires forall k :: 0 <= k < |s| ==> DullIn(st, s[k])
    ensures Passed(scan, i, st, s)
    decreases |s|
  {
    if s != [] {
      assert s == [s[0]] + s[1..];
      AtConcat(buf, i, [s[0]], s[1..]);
      assert buf[i] == s[0] && Look(i, st);
      PassDull(scan, buf, i + 1, Turn(st, s[0], i), s[1..]);
    }
  }

  lemma PassUnit(scan: Scanner, buf: Bytes, i: nat, st: Scan, u: StrUnit)
    requires Scans(scan, buf) && At(buf, i, PrintUnit(u)) && Quoted(st) && LegalUnit(u)
    ensures Passed(scan, i, st, PrintUnit(u))
  {
    match u
    case Raw(b) => PassDull(scan, buf, i, st, [b]);
    case Escape(b) => PassEscaped(scan, buf, i, st, b, []);
    case Hex(digits) => PassEscaped(scan, buf, i, st, 0x75, digits);
  }

  /** The byte behind a backslash is never read as a quote or another backslash. */
  lemma PassEscaped(scan: Scanner, buf: Bytes, i: nat, st: Scan, b: Byte, digits: Bytes)
    requires Scans(scan, buf) && At(buf, i, [BACKSLASH, b] + digits) && Quoted(st) && !IsWhitespace(b)
    requires forall k :: 0 <= k < |digits| ==> IsHexDigit(digits[k])
    ensures Passed(scan, i, st, [BACKSLASH, b] + digits)
  {
    AtConcat(buf, i, [BACKSLASH, b], digits);
    assert buf[i] == buf[i..i + 2][0] == BACKSLASH && buf[i + 1] == buf[i..i + 2][1] == b;
    assert Look(i, st) && Look(i + 1, Turn(st, BACKSLASH, i));
    assert Turn(Turn(st, BACKSLASH, i), b, i + 1) == st;
    assert Passed(scan, i, st, [BACKSLASH, b]);
    PassDull(scan, buf, i + 2, st, digits);
  }

  lemma {:induction false} PassUnits(scan: Scanner, buf: Bytes, i: nat, st: Scan, units: seq<StrUnit>)
    requires Scans(scan, buf) && At(buf, i, PrintUnits(units)) && Quoted(st) && LegalStr(units)
    ensures Passed(scan, i, st, PrintUnits(units))
    decreases |units|
  {
    if units != [] {
      var head, tail := PrintUnit(units[0]), PrintUnits(units[1..]);
      AtConcat(buf, i, head, tail);
      PassUnit(scan, buf, i, st, units[0]);
      PassUnits(scan, buf, i + |head|, st, units[1..]);
    }
  }

  /** A string, whatever it escapes, is closed by its own closing quote. */
  lemma PassStr(scan: Scanner, buf: Bytes, i: nat, st: Scan, units: seq<StrUnit>)
    requires Scans(scan, buf) && At(buf, i, PrintStr(units)) && Open(st) && LegalStr(units)
    ensures Passed(scan, i, st, PrintStr(units))
  {
    var body := PrintUnits(units);
    AtConcat(buf, i, [QUOTE] + body, [QUOTE]);
    AtConcat(buf, i, [QUOTE], body);
    var inside := st.(inStr := true);
    assert buf[i] == QUOTE && Look(i, st) && Turn(st, QUOTE, i) == inside;
    PassUnits(scan, buf, i + 1, inside, units);
    var j := i + 1 + |body|;
    assert buf[j] == QUOTE && Look(j, inside) && Turn(inside, QUOTE, j) == st;
  }

  lemma PassColon(scan: Scanner, buf: Bytes, i: nat, st: Scan, before: Bytes, after: Bytes)
    requires Scans(scan, buf) && At(buf, i, before + ([COLON] + after)) && Open(st) && Blank(before) && Blank(after)
    ensures Passed(scan, i, st, before + ([COLON] + after))
  {
    PassDull(scan, buf, i, st, before + ([COLON] + after));
  }

  lemma PassLabel(scan: Scanner, buf: Bytes, i: nat, st: Scan, key: Option<Label>)
    requires Scans(scan, buf) && At(buf, i, PrintLabel(key)) && Open(st) && LegalLabel(key)
    ensures Passed(scan, i, st, PrintLabel(key))
  {
    if key.Some? {
      var l := key.value;
      var name, colon := PrintStr(l.name), l.beforeColon + ([COLON] + l.afterColon);
      AtConcat(buf, i, name, colon);
      PassStr(scan, buf, i, st, l.name);
      PassColon(scan, buf, i + |name|, st, l.beforeColon, l.afterColon);
    }
  }

  /** Any JSON value nested in a message is passed over without ending the message. */
  lemma {:induction false} PassValue(scan: Scanner, buf: Bytes, i: nat, st: Scan, v: Json)
    requires Scans(scan, buf) && At(buf, i, Print(v)) && Open(st) && Legal(v) && Room(st, Nesting(v))
    ensures Passed(scan, i, st, Print(v))
    decreases v, 0
  {
    match v
    case Plain(word) => PassDull(scan, buf, i, st, word);
    case Str(units) => PassStr(scan, buf, i, st, units);
    case Group(keyed, pad, items) => PassGroup(scan, buf, i, st, keyed, pad, items);
  }

  lemma {:induction false} PassGroup(scan: Scanner, buf: Bytes, i: nat, st: Scan, keyed: bool, pad: Bytes, items: Items)
    requires Scans(scan, buf) && At(buf, i, [Opening(keyed)] + (pad + PrintItems(items)) + [Closing(keyed)])
    requires Open(st) && Blank(pad) && LegalItems(items, keyed) && Room(st, 1 + ItemsNesting(items))
    ensures Passed(scan, i, st, [Opening(keyed)] + (pad + PrintItems(items)) + [Closing(keyed)])
    decreases items, 2
  {
    var inner := pad + PrintItems(items);
    AtConcat(buf, i, [Opening(keyed)] + inner, [Closing(keyed)]);
    AtConcat(buf, i, [Opening(keyed)], inner);
    PassInner(scan, buf, i + 1, st.(depth := Deeper(st.depth)), pad, items, keyed);
    PassBrackets(scan, buf, i, st, keyed, inner);
  }

  /** Brackets around a stretch that is passed over cancel out. */
  lemma PassBrackets(scan: Scanner, buf: Bytes, i: nat, st: Scan, keyed: bool, inner: Bytes)
    requires Scans(scan, buf) && At(buf, i, [Opening(keyed)]) && At(buf, i + 1 + |inner|, [Closing(keyed)])
    requires Open(st) && Room(st, 1)
    requires Passed(scan, i + 1, st.(depth := Deeper(st.depth)), inner)
    ensures Passed(scan, i, st, [Opening(keyed)] + inner + [Closing(keyed)])
  {
    var deeper, j := st.(depth := Deeper(st.depth)), i + 1 + |inner|;
    assert buf[i] == Opening(keyed) && Look(i, st) && Turn(st, buf[i], i) == deeper;
    assert buf[j] == Closing(keyed) && Look(j, deeper) && Turn(deeper, buf[j], j) == st;
  }

  lemma {:induction false} PassInner(scan: Scanner, buf: Bytes, i: nat, st: Scan, pad: Bytes, items: Items, keyed: bool)
    requires Scans(scan, buf) && At(buf, i, pad + PrintItems(items)) && Open(st)
    requires Blank(pad) && LegalItems(items, keyed) && Room(st, ItemsNesting(items))
    ensures Passed(scan, i, st, pad + PrintItems(items))
    decreases items, 1
  {
    AtConcat(buf, i, pad, PrintItems(items));
    PassDull(scan, buf, i, st, pad);
    PassItems(scan, buf, i + |pad|, st, items, keyed);
  }

  lemma {:induction false} PassItems(scan: Scanner, buf: Bytes, i: nat, st: Scan, items: Items, keyed: bool)
    requires Scans(scan, buf) && At(buf, i, PrintItems(items)) && Open(st)
    requires LegalItems(items, keyed) && Room(st, ItemsNesting(items))
    ensures Passed(scan, i, st, PrintItems(items))
    decreases items, 0
  {
    match items
    case End =>
    case Item(before, key, value, after, rest) =>
      var a, t, r := PrintEntry(before, key, value), after + Comma(rest), PrintItems(rest);
      AtThree(buf, i, a, t, r);
      PassEntry(scan, buf, i, st, before, key, value);
      PassTail(scan, buf, i + |a|, st, after, rest);
      PassItems(scan, buf, i + |a| + |t|, st, rest, keyed);
  }

  lemma {:induction false} PassEntry(
    scan: Scanner, buf: Bytes, i: nat, st: Scan, before: Bytes, key: Option<Label>, value: Json)
    requires Scans(scan, buf) && At(buf, i, PrintEntry(before, key, value)) && Open(st)
    requires LegalEntry(before, key, value) && Room(st, Nesting(value))
    ensures Passed(scan, i, st, PrintEntry(before, key, value))
    decreases value, 1
  {
    var head := before + PrintLabel(key);
    AtConcat(buf, i, head, Print(value));
    PassHead(scan, buf, i, st, before, key);
    PassValue(scan, buf, i + |head|, st, value);
  }

  lemma PassTail(scan: Scanner, buf: Bytes, i: nat, st: Scan, after: Bytes, rest: Items)
    requires Scans(scan, buf) && At(buf, i, after + Comma(rest)) && Open(st) && Blank(after)
    ensures Passed(scan, i, st, after + Comma(rest))
  {
    PassDull(scan, buf, i, st, after + Comma(rest));
  }

  lemma PassHead(scan: Scanner, buf: Bytes, i: nat, st: Scan, before: Bytes, key: Option<Label>)
    requires Scans(scan, buf) && At(buf, i, before + PrintLabel(key)) && Open(st) && Blank(before) && LegalLabel(key)
    ensures Passed(scan, i, st, before + PrintLabel(key))
  {
    AtConcat(buf, i, before, PrintLabel(key));
    PassDull(scan, buf, i, st, before);
    PassLabel(scan, buf, i + |before|, st, key);
  }

  // ---------------------------------------------------------------- one message in the buffer

  /** Whitespace at the front of a buffer never ends a message. */
  lemma {:induction false} LeadingBlanks(scan: Scanner, buf: Bytes, gap: Bytes, k: nat)
    requires Scans(scan, buf) && gap <= buf && Blank(gap) && k <= |gap|
    ensures scan(k, FRESH) == scan(|gap|, FRESH)
    decreases |gap| - k
  {
    if k < |gap| {
      assert Look(k, FRESH) && buf[k] == gap[k];
      BlanksPrefix(gap, buf, k + 1);
      BlankIsAllBlanks(gap, k + 1);
      LeadingBlanks(scan, buf, gap, k + 1);
    }
  }

  /** The scanner right after the opening bracket that stands `g` bytes into the buffer. */
  function Entered(g: nat): Scan { Scan(1, false, false, g, 0) }

  lemma AtOpening(scan: Scanner, buf: Bytes, gap: Bytes, opening: Byte)
    requires Scans(scan, buf) && Blank(gap) && IsOpening(opening) && gap <= buf && At(buf, |gap|, [opening])
    ensures scan(0, FRESH) == scan(|gap| + 1, Entered(|gap|))
  {
    LeadingBlanks(scan, buf, gap, 0);
    assert buf[|gap|] == opening && Look(|gap|, FRESH);
  }

  lemma AtEnd(scan: Scanner, buf: Bytes, g: nat, n: nat, closing: Byte)
    requires Scans(scan, buf) && IsClosing(closing) && g < n && At(buf, n, [closing])
    ensures scan(n, Entered(g))
      == if n - g + 1 > BlanksIn(buf, n + 1) then Some(n + 1) else scan(n + 1, FRESH.(start := g))
  {
    assert buf[n] == closing && Look(n, Entered(g));
  }

  /** What decides the end of a message that stands `|gap|` bytes into the buffer. */
  lemma GroupEndAt(scan: Scanner, buf: Bytes, gap: Bytes, keyed: bool, inner: Bytes)
    requires Scans(scan, buf) && gap <= buf && Blank(gap)
    requires At(buf, |gap|, [Opening(keyed)]) && At(buf, |gap| + 1 + |inner|, [Closing(keyed)])
    requires Passed(scan, |gap| + 1, Entered(|gap|), inner)
    ensures var n := |gap| + |inner| + 2;
      && n <= |buf|
      && scan(0, FRESH) == if |inner| + 2 > BlanksIn(buf, n) then Some(n) else scan(n, FRESH.(start := |gap|))
  {
    AtOpening(scan, buf, gap, Opening(keyed));
    AtEnd(scan, buf, |gap|, |gap| + 1 + |inner|, Closing(keyed));
  }

  lemma MessageParts(scan: Scanner, buf: Bytes, g: nat, v: Json) returns (inner: Bytes)
    requires Scans(scan, buf) && At(buf, g, Print(v)) && IsMessage(v)
    ensures |Print(v)| == |inner| + 2
    ensures At(buf, g, [Opening(v.keyed)]) && At(buf, g + 1 + |inner|, [Closing(v.keyed)])
    ensures Passed(scan, g + 1, Entered(g), inner)
  {
    inner := v.pad + PrintItems(v.items);
    AtConcat(buf, g, [Opening(v.keyed)] + inner, [Closing(v.keyed)]);
    AtConcat(buf, g, [Opening(v.keyed)], inner);
    PassInner(scan, buf, g + 1, Entered(g), v.pad, v.items, v.keyed);
  }

  lemma MessageEndBy(scan: Scanner, buf: Bytes, gap: Bytes, v: Json, p: Bytes)
    requires Scans(scan, buf)
    requires p == Print(v) && gap <= buf && At(buf, |gap|, p) && Blank(gap) && IsMessage(v)
    ensures var n := |gap| + |p|;
      scan(0, FRESH) == if |p| > BlanksIn(buf, n) then Some(n) else scan(n, FRESH.(start := |gap|))
  {
    var inner := MessageParts(scan, buf, |gap|, v);
    GroupEndAt(scan, buf, gap, v.keyed, inner);
  }

  lemma MessageEndAt(buf: Bytes, gap: Bytes, v: Json, p: Bytes)
    requires p == Print(v) && gap <= buf && At(buf, |gap|, p) && Blank(gap) && IsMessage(v)
    ensures var n := |gap| + |p|;
      FirstFrame(buf) == if |p| > BlanksIn(buf, n) then Some(n) else ScannerOf(buf)(n, FRESH.(start := |gap|))
  {
    ScannerScans(buf);
    MessageEndBy(ScannerOf(buf), buf, gap, v, p);
  }

  /**
   The scanner cuts a message off exactly where it ends if and only if the whitespace before it is
   shorter than the message without its own whitespace.
   */
  lemma MessageEnd(gap: Bytes, v: Json, rest: Bytes)
    requires Blank(gap) && IsMessage(v)
    ensures FirstFrame(gap + Print(v) + rest) == Some(|gap| + |Print(v)|) <==> |gap| < NonBlanks(Print(v))
  {
    var p := Print(v);
    var buf := gap + p + rest;
    assert At(buf, |gap|, p);
    MessageEndAt(buf, gap, v, p);
    BlanksConcat(gap, p, rest, |p|);
    BlankIsAllBlanks(gap, |gap|);
  }

  /** Section 2 of RFC 8259 allows any whitespace before a text; here two newlines keep `{}` back. */
  lemma GapCanHoldAMessageBack()
    ensures IsMessage(Group(true, [], End)) && Blank([NEWLINE, NEWLINE])
    ensures Decode(Empty, [NEWLINE, NEWLINE] + Print(Group(true, [], End)))
         == (NotYet, [NEWLINE, NEWLINE, BEGIN_OBJECT, END_OBJECT])
  {
    var gap, v := [NEWLINE, NEWLINE], Group(true, [], End);
    var p: Bytes, buf: Bytes := [BEGIN_OBJECT, END_OBJECT], [NEWLINE, NEWLINE, BEGIN_OBJECT, END_OBJECT];
    assert Print(v) == p && gap + p == buf && gap + p + [] == buf && At(buf, 2, p);
    MessageEndAt(buf, gap, v, p);
    BlanksConcat(gap, p, [], 2);
    BlankIsAllBlanks(gap, 2);
  }

  // ---------------------------------------------------------------- whole streams

  type Decoder = Bytes -> (Decoded, Bytes)

  function DecoderOf(separator: Separator): (d: Decoder)
    ensures Shrinks(d)
  {
    buf => Decode(separator, buf)
  }

  /** A message read takes bytes off the buffer. */
  ghost predicate Shrinks(decode: Decoder) {
    forall buf :: decode(buf).0.Message? ==> |decode(buf).1| < |buf|
  }

  /** What is read by calling `decode` until it has no message, and the bytes left over. */
  ghost function DrainBy(decode: Decoder, buf: Bytes): (seq<Bytes>, Bytes)
    requires Shrinks(decode)
    decreases |buf|
  {
    match decode(buf)
    case (Message(text), rest) => var (more, left) := DrainBy(decode, rest); ([text] + more, left)
    case (_, rest) => ([], rest)
  }

  ghost function Drain(separator: Separator, buf: Bytes): (seq<Bytes>, Bytes) {
    DrainBy(DecoderOf(separator), buf)
  }

  lemma DrainUnfolds(separator: Separator, buf: Bytes)
    ensures var (report, rest) := Decode(separator, buf);
      match report
      case Message(text) =>
        Drain(separator, buf) == ([text] + Drain(separator, rest).0, Drain(separator, rest).1)
      case _ => Drain(separator, buf) == ([], rest)
  {
    assert DecoderOf(separator)(buf) == Decode(separator, buf);
  }

  datatype Spaced = Spaced(gap: Bytes, message: Json)

  /** Whitespace and a message. */
  ghost predicate Spacing(m: Spaced) { Blank(m.gap) && IsMessage(m.message) }

  ghost predicate Readable(m: Spaced) {
    Spacing(m) && Utf8.Valid(Print(m.message)) && |m.gap| < NonBlanks(Print(m.message))
  }

  function Frame(m: Spaced): Bytes { m.gap + Print(m.message) }

  function Stream(frames: seq<Bytes>, trailing: Bytes): Bytes {
    if frames == [] then trailing else frames[0] + Stream(frames[1..], trailing)
  }

  function Frames(ms: seq<Spaced>): (r: seq<Bytes>)
    ensures |r| == |ms| && forall i :: 0 <= i < |ms| ==> r[i] == Frame(ms[i])
  {
    seq(|ms|, i requires 0 <= i < |ms| => Frame(ms[i]))
  }

  lemma FrameIsDecoded(m: Spaced, rest: Bytes)
    requires Readable(m)
    ensures Decode(Empty, Frame(m) + rest) == (Message(Frame(m)), rest)
  {
    MessageEnd(m.gap, m.message, rest);
    var buf := Frame(m) + rest;
    assert buf[..|Frame(m)|] == Frame(m) && buf[|Frame(m)|..] == rest;
    Utf8.AsciiPrefix(m.gap, Print(m.message));
  }

  lemma BlanksYieldNothing(s: Bytes)
    requires Blank(s)
    ensures Decode(Empty, s) == (NotYet, s)
  {
    ScannerScans(s);
    LeadingBlanks(ScannerOf(s), s, s, 0);
  }

  lemma {:induction false} DrainFrames(decode: Decoder, frames: seq<Bytes>, texts: seq<Bytes>, trailing: Bytes)
    requires Shrinks(decode) && |texts| == |frames|
    requires forall i, rest :: 0 <= i < |frames| ==> decode(frames[i] + rest) == (Message(texts[i]), rest)
    requires !decode(trailing).0.Message? && decode(trailing).1 == trailing
    ensures DrainBy(decode, Stream(frames, trailing)) == (texts, trailing)
    decreases |frames|
  {
    if frames != [] {
      var rest := Stream(frames[1..], trailing);
      forall i, more | 0 <= i < |frames[1..]|
        ensures decode(frames[1..][i] + more) == (Message(texts[1..][i]), more)
      {
        assert frames[1..][i] == frames[i + 1];
      }
      DrainFrames(decode, frames[1..], texts[1..], trailing);
      assert decode(frames[0] + rest) == (Message(texts[0]), rest);
      assert texts == [texts[0]] + texts[1..];
    }
  }

  lemma ReadableIsDecoded(ms: seq<Spaced>, trailing: Bytes)
    requires forall i :: 0 <= i < |ms| ==> Readable(ms[i])
    requires Blank(trailing)
    ensures Drain(Empty, Stream(Frames(ms), trailing)) == (Frames(ms), trailing)
  {
    forall i, rest | 0 <= i < |ms|
      ensures DecoderOf(Empty)(Frames(ms)[i] + rest) == (Message(Frames(ms)[i]), rest)
    {
      FrameIsDecoded(ms[i], rest);
    }
    BlanksYieldNothing(trailing);
    DrainFrames(DecoderOf(Empty), Frames(ms), Frames(ms), trailing);
  }

  /** A frame that comes out whole was readable. */
  lemma DecodedFrameIsReadable(m: Spaced, rest: Bytes)
    requires Spacing(m) && Decode(Empty, Frame(m) + rest).0 == Message(Frame(m))
    ensures Readable(m) && Decode(Empty, Frame(m) + rest).1 == rest
  {
    var buf := Frame(m) + rest;
    MessageEnd(m.gap, m.message, rest);
    Utf8.AsciiPrefix(m.gap, Print(m.message));
    var n := FirstFrame(buf).value;
    assert |buf[..n]| == n && buf[|Frame(m)|..] == rest;
  }

  lemma {:induction false} DecodedIsReadable(ms: seq<Spaced>, trailing: Bytes)
    requires forall i :: 0 <= i < |ms| ==> Spacing(ms[i])
    requires Drain(Empty, Stream(Frames(ms), trailing)) == (Frames(ms), trailing)
    ensures forall i :: 0 <= i < |ms| ==> Readable(ms[i])
    decreases |ms|
  {
    if ms != [] {
      var frames, rest := Frames(ms), Stream(Frames(ms[1..]), trailing);
      assert frames[1..] == Frames(ms[1..]);
      var buf := frames[0] + rest;
      assert Stream(frames, trailing) == buf;
      DrainUnfolds(Empty, buf);
      assert frames == [frames[0]] + frames[1..];
      DecodedFrameIsReadable(ms[0], rest);
      DecodedIsReadable(ms[1..], trailing);
      assert forall i :: 1 <= i < |ms| ==> ms[i] == ms[1..][i - 1];
    }
  }

  /**
   Every message comes out whole and in order, and trailing whitespace yields nothing, if and only
   if every message is UTF-8 and has less whitespace before it than other bytes of its own.
   */
  lemma StreamIsDecoded(ms: seq<Spaced>, trailing: Bytes)
    requires forall i :: 0 <= i < |ms| ==> Spacing(ms[i])
    requires Blank(trailing)
    ensures Drain(Empty, Stream(Frames(ms), trailing)) == (Frames(ms), trailing)
            <==> forall i :: 0 <= i < |ms| ==> Readable(ms[i])
  {
    if forall i :: 0 <= i < |ms| ==> Readable(ms[i]) {
      ReadableIsDecoded(ms, trailing);
    }
    if Drain(Empty, Stream(Frames(ms), trailing)) == (Frames(ms), trailing) {
      DecodedIsReadable(ms, trailing);
    }
  }

  // ---------------------------------------------------------------- encode, then decode

  /** The bytes that encoding `messages` one after another appends to a buffer. */
  function Encoded(separator: Separator, messages: seq<Bytes>): (r: seq<Bytes>)
    ensures |r| == |messages| && forall i :: 0 <= i < |messages| ==> r[i] == Envelope(separator, messages[i])
  {
    seq(|messages|, i requires 0 <= i < |messages| => Envelope(separator, messages[i]))
  }

  /** Line mode: messages without the separator byte survive, up to an unfinished last line. */
  lemma LineRoundTrip(byte: Byte, messages: seq<Bytes>, partial: Bytes)
    requires forall i :: 0 <= i < |messages| ==> byte !in messages[i] && Utf8.Valid(messages[i])
    requires byte !in partial
    ensures Drain(Sentinel(byte), Stream(Encoded(Sentinel(byte), messages), partial)) == (messages, partial)
  {
    var lines := Encoded(Sentinel(byte), messages);
    forall i, rest | 0 <= i < |messages|
      ensures DecoderOf(Sentinel(byte))(lines[i] + rest) == (Message(messages[i]), rest)
    {
      LineIsDecoded(byte, messages[i], rest);
    }
    DrainFrames(DecoderOf(Sentinel(byte)), lines, messages, partial);
  }

  lemma LineIsDecoded(byte: Byte, m: Bytes, rest: Bytes)
    requires byte !in m && Utf8.Valid(m)
    ensures Decode(Sentinel(byte), m + [byte] + rest) == (Message(m), rest)
  {
    var buf := m + [byte] + rest;
    var at := Position(buf, byte);
    assert buf[|m|] == byte;
    assert forall i :: 0 <= i < |m| ==> buf[i] == m[i];
    assert buf[..|m|] == m && buf[|m| + 1..] == rest;
  }

  /** Each message but the first preceded by the newline that closed the one before. */
  function WithNewlines(vs: seq<Json>): (r: seq<Spaced>)
    ensures |r| == |vs|
    ensures forall i :: 0 <= i < |vs| ==> r[i] == Spaced(if i == 0 then [] else [NEWLINE], vs[i])
  {
    seq(|vs|, i requires 0 <= i < |vs| => Spaced(if i == 0 then [] else [NEWLINE], vs[i]))
  }

  function Printed(vs: seq<Json>): (r: seq<Bytes>)
    ensures |r| == |vs| && forall i :: 0 <= i < |vs| ==> r[i] == Print(vs[i])
  {
    seq(|vs|, i requires 0 <= i < |vs| => Print(vs[i]))
  }

  /** Newlines behind the texts are newlines in front of the next ones. */
  lemma {:induction false} ShiftNewlines(lines: seq<Bytes>, shifted: seq<Bytes>, texts: seq<Bytes>, gap: Bytes)
    requires |lines| == |shifted| == |texts| > 0
    requires forall i :: 0 <= i < |texts| ==> lines[i] == texts[i] + [NEWLINE]
    requires forall i :: 0 <= i < |texts| ==> shifted[i] == (if i == 0 then gap else [NEWLINE]) + texts[i]
    ensures gap + Stream(lines, []) == Stream(shifted, [NEWLINE])
    decreases |lines|
  {
    var tail := Stream(lines[1..], []);
    assert gap + Stream(lines, []) == shifted[0] + ([NEWLINE] + tail);
    if |lines| > 1 {
      ShiftNewlines(lines[1..], shifted[1..], texts[1..], [NEWLINE]);
    } else {
      assert [NEWLINE] + tail == [NEWLINE];
      assert Stream(shifted[1..], [NEWLINE]) == [NEWLINE];
    }
  }

  /** The IPC pairing: written with newlines, read by scanning, equal up to one leading newline. */
  lemma IpcRoundTrip(vs: seq<Json>)
    requires forall i :: 0 <= i < |vs| ==> IsMessage(vs[i]) && Utf8.Valid(Print(vs[i]))
    ensures var (frames, left) := Drain(Empty, Stream(Encoded(Sentinel(NEWLINE), Printed(vs)), []));
      && |frames| == |vs|
      && left == (if vs == [] then [] else [NEWLINE])
      && forall i :: 0 <= i < |vs| ==> frames[i] == (if i == 0 then [] else [NEWLINE]) + Print(vs[i])
  {
    var lines, ms := Encoded(Sentinel(NEWLINE), Printed(vs)), WithNewlines(vs);
    if vs == [] {
      BlanksYieldNothing([]);
      assert Stream(lines, []) == [];
    } else {
      forall i | 0 <= i < |vs|
        ensures Readable(ms[i])
      {
        MessageIsNotBlank(vs[i]);
      }
      ReadableIsDecoded(ms, [NEWLINE]);
      ShiftNewlines(lines, Frames(ms), Printed(vs), []);
      assert [] + Stream(lines, []) == Stream(lines, []);
    }
  }

  /** Without separators on either side, messages come back as they are. */
  lemma BareRoundTrip(vs: seq<Json>)
    requires forall i :: 0 <= i < |vs| ==> IsMessage(vs[i]) && Utf8.Valid(Print(vs[i]))
    ensures Drain(Empty, Stream(Encoded(Empty, Printed(vs)), [])) == (Printed(vs), [])
  {
    var ms := seq(|vs|, i requires 0 <= i < |vs| => Spaced([], vs[i]));
    forall i | 0 <= i < |vs|
      ensures Readable(ms[i]) && Frame(ms[i]) == Print(vs[i])
    {
      MessageIsNotBlank(vs[i]);
      assert [] + Print(vs[i]) == Print(vs[i]);
    }
    assert Frames(ms) == Printed(vs) == Encoded(Empty, Printed(vs));
    ReadableIsDecoded(ms, []);
  }
}
