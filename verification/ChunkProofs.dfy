/**
 Whether it matters how a byte stream is cut into chunks on its way to the codec.

 The argument needs only two facts about finding a frame: bytes that arrive later do not move the
 end of a frame, and neither do the bytes behind it. It is made for any framing with them, and both
 modes of the codec are such framings.
 */
module ChunkProofs {
  import opened Basics
  import opened StreamCodec
  import CodecProofs
  import Utf8

  type Bytes = seq<Byte>

  /** Where the first frame of a buffer ends, if it has a complete one, and what is read from a frame, if anything. */
  datatype Framing<!R> = Framing(find: Bytes -> Option<nat>, read: Bytes -> Option<R>)

  /** What was read, in order, and the bytes left over. */
  type Drained<R> = (seq<R>, Bytes)

  ghost predicate Stable<R(!new)>(f: Framing<R>) {
    && (forall a: Bytes :: f.find(a).Some? ==> 0 < f.find(a).value <= |a|)
    && (forall a: Bytes, b: Bytes {:trigger f.find(a + b)} :: f.find(a).Some? ==> f.find(a + b) == f.find(a))
  }

  /** A frame is complete without the bytes behind it. */
  ghost predicate Tight<R>(f: Framing<R>, buf: Bytes) {
    f.find(buf).Some? && f.find(buf).value <= |buf| ==> f.find(buf[..f.find(buf).value]) == f.find(buf)
  }

  ghost predicate AllTight<R>(f: Framing<R>) { forall b: Bytes {:trigger Tight(f, b)} :: Tight(f, b) }

  /** Reading until there is no frame, or the frame just taken off cannot be read. */
  ghost function Drain<R(!new)>(f: Framing<R>, buf: Bytes): Drained<R>
    requires Stable(f)
    decreases |buf|
  {
    match f.find(buf)
    case None => ([], buf)
    case Some(n) =>
      match f.read(buf[..n])
      case None => ([], buf[n..])
      case Some(text) => Prepend(text, Drain(f, buf[n..]))
  }

  /** Feeding chunk by chunk and draining after each. */
  ghost function DrainChunks<R(!new)>(f: Framing<R>, buf: Bytes, chunks: seq<Bytes>): Drained<R>
    requires Stable(f)
    decreases |chunks|
  {
    if chunks == [] then ([], buf)
    else
      var now := Drain(f, buf + chunks[0]);
      Then(now, DrainChunks(f, now.1, chunks[1..]))
  }

  function Joined(chunks: seq<Bytes>): Bytes {
    if chunks == [] then [] else chunks[0] + Joined(chunks[1..])
  }

  /** Every frame, except perhaps the last complete one, can be read. */
  ghost predicate OnlyLastMayFail<R(!new)>(f: Framing<R>, buf: Bytes)
    requires Stable(f)
    decreases |buf|
  {
    match f.find(buf)
    case None => true
    case Some(n) => (f.read(buf[..n]).Some? || f.find(buf[n..]).None?) && OnlyLastMayFail(f, buf[n..])
  }

  ghost function Halves<R(!new)>(f: Framing<R>, a: Bytes, b: Bytes): Drained<R>
    requires Stable(f)
  {
    Then(Drain(f, a), Drain(f, Drain(f, a).1 + b))
  }

  function Then<R>(d: Drained<R>, e: Drained<R>): Drained<R> { (d.0 + e.0, e.1) }

  function Prepend<R>(text: R, d: Drained<R>): Drained<R> { ([text] + d.0, d.1) }

  lemma PrependThen<R>(text: R, d: Drained<R>, e: Drained<R>)
    ensures Then(Prepend(text, d), e) == Prepend(text, Then(d, e))
  {
    assert [text] + d.0 + e.0 == [text] + (d.0 + e.0);
  }

  lemma PrependIsInjective<R>(text: R, x: Drained<R>, y: Drained<R>)
    requires Prepend(text, x) == Prepend(text, y)
    ensures x == y
  {
    assert ([text] + x.0)[1..] == x.0 && ([text] + y.0)[1..] == y.0;
  }

  // ---------------------------------------------------------------- if only the last frame may fail

  lemma {:induction false} TwoChunks<R(!new)>(f: Framing<R>, a: Bytes, b: Bytes)
    requires Stable(f) && OnlyLastMayFail(f, a + b)
    ensures Halves(f, a, b) == Drain(f, a + b)
    ensures f.find(Drain(f, a).1).None? && OnlyLastMayFail(f, Drain(f, a).1 + b)
    decreases |a|
  {
    if f.find(a).Some? {
      var n := f.find(a).value;
      assert f.find(a + b) == f.find(a);
      assert (a + b)[..n] == a[..n] && (a + b)[n..] == a[n..] + b;
      if f.read(a[..n]).Some? {
        TwoChunks(f, a[n..], b);
        var d := Drain(f, a[n..]);
        PrependThen(f.read(a[..n]).value, d, Drain(f, d.1 + b));
      } else {
        TwoChunksAfterFailure(f, a, b, n);
      }
    } else {
      assert [] + Drain(f, a + b).0 == Drain(f, a + b).0;
    }
  }

  lemma TwoChunksAfterFailure<R(!new)>(f: Framing<R>, a: Bytes, b: Bytes, n: nat)
    requires Stable(f) && n <= |a| && f.find(a) == Some(n) && f.read(a[..n]).None?
    requires f.find(a + b) == Some(n) && (a + b)[..n] == a[..n] && (a + b)[n..] == a[n..] + b
    requires f.find(a[n..] + b).None?
    ensures Halves(f, a, b) == Drain(f, a + b) && Drain(f, a).1 == a[n..] && f.find(a[n..]).None?
  {
    assert Drain(f, a[n..] + b) == ([], a[n..] + b);
    assert Drain(f, a).0 + Drain(f, a[n..] + b).0 == [];
  }

  lemma {:induction false} ChunksAgree<R(!new)>(f: Framing<R>, buf: Bytes, chunks: seq<Bytes>)
    requires Stable(f) && f.find(buf).None? && OnlyLastMayFail(f, buf + Joined(chunks))
    ensures DrainChunks(f, buf, chunks) == Drain(f, buf + Joined(chunks))
    decreases |chunks|
  {
    if chunks == [] {
      assert buf + Joined(chunks) == buf;
    } else {
      var a, tail := buf + chunks[0], Joined(chunks[1..]);
      assert buf + Joined(chunks) == a + tail;
      TwoChunks(f, a, tail);
      ChunksAgree(f, Drain(f, a).1, chunks[1..]);
    }
  }

  // ---------------------------------------------------------------- if an earlier frame fails

  /** Where dropping a bad frame hides another one: cutting right after the bad frame shows it. */
  lemma {:induction false} BadCut<R(!new)>(f: Framing<R>, buf: Bytes) returns (cut: nat)
    requires Stable(f) && AllTight(f) && !OnlyLastMayFail(f, buf)
    ensures cut <= |buf| && Halves(f, buf[..cut], buf[cut..]) != Drain(f, buf)
    decreases |buf|
  {
    var n := f.find(buf).value;
    var frame, rest := buf[..n], buf[n..];
    assert Tight(f, buf);
    assert buf == frame + rest;
    if f.read(frame).Some? {
      var k := BadCut(f, rest);
      cut := n + k;
      BadCutLater(f, frame, rest, k);
      assert buf[..cut] == frame + rest[..k] && buf[cut..] == rest[k..];
    } else {
      cut := n;
      BadCutHere(f, frame, rest);
    }
  }

  lemma BadCutLater<R(!new)>(f: Framing<R>, frame: Bytes, rest: Bytes, k: nat)
    requires Stable(f) && f.find(frame) == Some(|frame|) && f.read(frame).Some? && k <= |rest|
    requires Halves(f, rest[..k], rest[k..]) != Drain(f, rest)
    ensures Halves(f, frame + rest[..k], rest[k..]) != Drain(f, frame + rest)
  {
    var text := f.read(frame).value;
    FrameFirst(f, frame, rest);
    HalvesAfterFrame(f, frame, rest[..k], rest[k..]);
    if Prepend(text, Halves(f, rest[..k], rest[k..])) == Prepend(text, Drain(f, rest)) {
      PrependIsInjective(text, Halves(f, rest[..k], rest[k..]), Drain(f, rest));
    }
  }

  lemma BadCutHere<R(!new)>(f: Framing<R>, frame: Bytes, rest: Bytes)
    requires Stable(f) && f.find(frame) == Some(|frame|) && f.read(frame).None? && f.find(rest).Some?
    ensures Halves(f, frame, rest) != Drain(f, frame + rest)
  {
    BadFrameAlone(f, frame);
    assert [] + rest == rest;
    assert f.find(frame + rest) == f.find(frame);
    assert (frame + rest)[..|frame|] == frame && (frame + rest)[|frame|..] == rest;
    DrainShrinks(f, rest);
  }

  /** Each frame taken off shortens the buffer. */
  lemma {:induction false} DrainShrinks<R(!new)>(f: Framing<R>, buf: Bytes)
    requires Stable(f)
    ensures |Drain(f, buf).1| <= |buf|
    ensures f.find(buf).Some? ==> |Drain(f, buf).1| < |buf|
    decreases |buf|
  {
    if f.find(buf).Some? { DrainShrinks(f, buf[f.find(buf).value..]); }
  }

  lemma BadFrameAlone<R(!new)>(f: Framing<R>, frame: Bytes)
    requires Stable(f) && f.find(frame) == Some(|frame|) && f.read(frame).None?
    ensures Drain(f, frame) == ([], [])
  {
    assert frame[..|frame|] == frame;
  }

  /** A complete readable frame at the front is read first, whatever follows it. */
  lemma FrameFirst<R(!new)>(f: Framing<R>, frame: Bytes, rest: Bytes)
    requires Stable(f) && f.find(frame) == Some(|frame|) && f.read(frame).Some?
    ensures Drain(f, frame + rest) == Prepend(f.read(frame).value, Drain(f, rest))
  {
    assert f.find(frame + rest) == f.find(frame);
    assert (frame + rest)[..|frame|] == frame && (frame + rest)[|frame|..] == rest;
  }

  lemma HalvesAfterFrame<R(!new)>(f: Framing<R>, frame: Bytes, a: Bytes, b: Bytes)
    requires Stable(f) && f.find(frame) == Some(|frame|) && f.read(frame).Some?
    ensures Halves(f, frame + a, b) == Prepend(f.read(frame).value, Halves(f, a, b))
  {
    FrameFirst(f, frame, a);
    PrependThen(f.read(frame).value, Drain(f, a), Drain(f, Drain(f, a).1 + b));
  }

  lemma TwoSteps<R(!new)>(f: Framing<R>, a: Bytes, b: Bytes)
    requires Stable(f)
    ensures DrainChunks(f, [], [a, b]) == Halves(f, a, b)
  {
    assert [] + a == a;
    var one: seq<Bytes> := [b];
    assert [a, b][1..] == one && |one[1..]| == 0;
    var left := Drain(f, a).1;
    var (later, end) := Drain(f, left + b);
    assert DrainChunks(f, left, one) == (later + [], end);
    assert later + [] == later;
  }

  // ---------------------------------------------------------------- the exact condition

  /** However a stream is cut, draining after each chunk gives what draining the whole gives. */
  ghost predicate CutsDoNotMatter<R(!new)>(f: Framing<R>, buf: Bytes)
    requires Stable(f)
  {
    forall chunks: seq<Bytes> :: Joined(chunks) == buf ==> DrainChunks(f, [], chunks) == Drain(f, buf)
  }

  lemma JoinedTwo(a: Bytes, b: Bytes)
    ensures Joined([a, b]) == a + b
  {
    assert [a, b][1..] == [b];
    assert [b][1..] == [];
    assert Joined([b]) == b + [];
  }

  lemma NoCutMatters<R(!new)>(f: Framing<R>, buf: Bytes)
    requires Stable(f) && OnlyLastMayFail(f, buf)
    ensures CutsDoNotMatter(f, buf)
  {
    forall chunks: seq<Bytes> | Joined(chunks) == buf
      ensures DrainChunks(f, [], chunks) == Drain(f, buf)
    {
      assert [] + Joined(chunks) == buf;
      ChunksAgree(f, [], chunks);
    }
  }

  lemma SomeCutMatters<R(!new)>(f: Framing<R>, buf: Bytes)
    requires Stable(f) && AllTight(f) && !OnlyLastMayFail(f, buf)
    ensures !CutsDoNotMatter(f, buf)
  {
    var cut := BadCut(f, buf);
    var a, b := buf[..cut], buf[cut..];
    TwoSteps(f, a, b);
    JoinedTwo(a, b);
    assert a + b == buf;
  }

  lemma Independence<R(!new)>(f: Framing<R>, buf: Bytes)
    requires Stable(f) && AllTight(f)
    ensures CutsDoNotMatter(f, buf) <==> OnlyLastMayFail(f, buf)
  {
    if OnlyLastMayFail(f, buf) {
      NoCutMatters(f, buf);
    } else {
      SomeCutMatters(f, buf);
    }
  }

  // ---------------------------------------------------------------- the two modes of the codec

  lemma {:induction false} FrameEndIsStable(a: Bytes, b: Bytes, idx: nat, st: Scan)
    requires idx <= |a| && FrameEnd(a, idx, st).Some?
    ensures FrameEnd(a + b, idx, st) == FrameEnd(a, idx, st)
    decreases |a| - idx
  {
    assert (a + b)[idx] == a[idx];
    if !Complete(Feed(st, a[idx], idx), idx) {
      FrameEndIsStable(a, b, idx + 1, Feed(st, a[idx], idx));
    }
  }

  lemma {:induction false} FrameEndIsTight(buf: Bytes, n: nat, idx: nat, st: Scan)
    requires idx <= n <= |buf| && FrameEnd(buf, idx, st) == Some(n)
    ensures FrameEnd(buf[..n], idx, st) == Some(n)
    decreases n - idx
  {
    assert buf[..n][idx] == buf[idx];
    if !Complete(Feed(st, buf[idx], idx), idx) {
      FrameEndIsTight(buf, n, idx + 1, Feed(st, buf[idx], idx));
    }
  }

  /** A line ends behind its separator. */
  function LineEnd(buf: Bytes, byte: Byte): (r: Option<nat>)
    ensures r.Some? ==> 0 < r.value <= |buf| && buf[r.value - 1] == byte && byte !in buf[..r.value - 1]
    ensures r.None? ==> byte !in buf
  {
    match Position(buf, byte)
    case None => None
    case Some(i) => Some(i + 1)
  }

  lemma LineEndIsFirst(buf: Bytes, byte: Byte, n: nat)
    requires 0 < n <= |buf| && buf[n - 1] == byte && byte !in buf[..n - 1]
    ensures LineEnd(buf, byte) == Some(n)
  {
    assert forall i :: 0 <= i < n - 1 ==> buf[..n - 1][i] == buf[i];
  }

  function Find(separator: Separator, buf: Bytes): Option<nat> {
    match separator
    case Empty => FirstFrame(buf)
    case Sentinel(byte) => LineEnd(buf, byte)
  }

  function WithoutLast(line: Bytes): Bytes { if line == [] then [] else line[..|line| - 1] }

  /** The text of a frame that `Find` found: without the separator. */
  function Text(separator: Separator, frame: Bytes): Bytes {
    if separator.Sentinel? then WithoutLast(frame) else frame
  }

  /** Frames that are UTF-8 are read as messages; others are dropped. */
  function Messages(separator: Separator): Framing<Bytes> {
    Framing(buf => Find(separator, buf),
            frame => if Utf8.Valid(Text(separator, frame)) then Some(Text(separator, frame)) else None)
  }

  lemma FindIsStable(separator: Separator, a: Bytes, b: Bytes)
    requires Find(separator, a).Some?
    ensures Find(separator, a + b) == Find(separator, a)
  {
    match separator
    case Empty => FrameEndIsStable(a, b, 0, FRESH);
    case Sentinel(byte) =>
      var n := LineEnd(a, byte).value;
      assert (a + b)[..n - 1] == a[..n - 1];
      LineEndIsFirst(a + b, byte, n);
  }

  lemma FindIsTight(separator: Separator, buf: Bytes)
    requires Find(separator, buf).Some?
    ensures Find(separator, buf[..Find(separator, buf).value]) == Find(separator, buf)
  {
    var n := Find(separator, buf).value;
    match separator
    case Empty => FrameEndIsTight(buf, n, 0, FRESH);
    case Sentinel(byte) =>
      assert buf[..n][..n - 1] == buf[..n - 1];
      LineEndIsFirst(buf[..n], byte, n);
  }

  /** Finding is the same whatever is made of the frames. */
  lemma FindsFrames<R(!new)>(separator: Separator, f: Framing<R>)
    requires forall buf: Bytes :: f.find(buf) == Find(separator, buf)
    ensures Stable(f) && AllTight(f)
  {
    forall a: Bytes, b: Bytes | f.find(a).Some?
      ensures f.find(a + b) == f.find(a)
    {
      FindIsStable(separator, a, b);
    }
    forall b: Bytes
      ensures Tight(f, b)
    {
      if f.find(b).Some? { FindIsTight(separator, b); }
    }
  }

  /** Draining by calls of `decode` is draining by frames. */
  lemma {:induction false} DrainIsDecoding(separator: Separator, buf: Bytes)
    requires Stable(Messages(separator))
    ensures Drain(Messages(separator), buf) == CodecProofs.Drain(separator, buf)
    decreases |buf|
  {
    var f := Messages(separator);
    DecodeFinds(separator, buf);
    CodecProofs.DrainUnfolds(separator, buf);
    match f.find(buf) {
      case None =>
      case Some(n) =>
        DrainIsDecoding(separator, buf[n..]);
        assert f.read(buf[..n]).Some? == Utf8.Valid(Text(separator, buf[..n]));
    }
  }

  /**
   One call takes the first frame off, if there is a complete one, and reports its text; a frame that
   is not UTF-8 is reported as an error in byte mode and passed over silently in scanning mode.
   */
  lemma DecodeFinds(separator: Separator, buf: Bytes)
    ensures match Find(separator, buf)
      case None => Decode(separator, buf) == (NotYet, buf)
      case Some(n) =>
        var text := Text(separator, buf[..n]);
        Decode(separator, buf)
          == (if Utf8.Valid(text) then Message(text) else if separator.Empty? then NotYet else InvalidUtf8, buf[n..])
  {
    if separator.Sentinel? && Find(separator, buf).Some? {
      var n := Find(separator, buf).value;
      assert buf[..n][..n - 1] == buf[..n - 1];
    }
  }

  /** Feeding the codec chunk by chunk and calling `decode` after each until it has no message. */
  ghost function DecodeChunks(separator: Separator, buf: Bytes, chunks: seq<Bytes>): Drained<Bytes>
    decreases |chunks|
  {
    if chunks == [] then ([], buf)
    else
      var now := CodecProofs.Drain(separator, buf + chunks[0]);
      Then(now, DecodeChunks(separator, now.1, chunks[1..]))
  }

  lemma {:induction false} ChunksAreDecoded(separator: Separator, buf: Bytes, chunks: seq<Bytes>)
    requires Stable(Messages(separator))
    ensures DrainChunks(Messages(separator), buf, chunks) == DecodeChunks(separator, buf, chunks)
    decreases |chunks|
  {
    if chunks != [] {
      DrainIsDecoding(separator, buf + chunks[0]);
      ChunksAreDecoded(separator, CodecProofs.Drain(separator, buf + chunks[0]).1, chunks[1..]);
    }
  }

  /** No frame that is not UTF-8 has another complete frame behind it. */
  ghost predicate OnlyLastMayBeInvalid(separator: Separator, buf: Bytes)
    decreases |buf|
  {
    match Find(separator, buf)
    case None => true
    case Some(n) =>
      && (Utf8.Valid(Text(separator, buf[..n])) || Find(separator, buf[n..]).None?)
      && OnlyLastMayBeInvalid(separator, buf[n..])
  }

  lemma {:induction false} MayFailIsInvalid(separator: Separator, buf: Bytes)
    requires Stable(Messages(separator))
    ensures OnlyLastMayFail(Messages(separator), buf) <==> OnlyLastMayBeInvalid(separator, buf)
    decreases |buf|
  {
    if Find(separator, buf).Some? { MayFailIsInvalid(separator, buf[Find(separator, buf).value..]); }
  }

  /** However a stream is cut, `decode` reads from the chunks, and leaves over, what it does from the whole. */
  ghost predicate ChunksDoNotMatter(separator: Separator, buf: Bytes) {
    forall chunks: seq<Bytes> :: Joined(chunks) == buf ==>
      DecodeChunks(separator, [], chunks) == CodecProofs.Drain(separator, buf)
  }

  lemma CutsAreChunks(separator: Separator, buf: Bytes)
    requires Stable(Messages(separator))
    ensures CutsDoNotMatter(Messages(separator), buf) <==> ChunksDoNotMatter(separator, buf)
  {
    var f := Messages(separator);
    DrainIsDecoding(separator, buf);
    if CutsDoNotMatter(f, buf) {
      forall chunks: seq<Bytes> | Joined(chunks) == buf
        ensures DecodeChunks(separator, [], chunks) == CodecProofs.Drain(separator, buf)
      {
        ChunksAreDecoded(separator, [], chunks);
      }
    }
    if ChunksDoNotMatter(separator, buf) {
      forall chunks: seq<Bytes> | Joined(chunks) == buf
        ensures DrainChunks(f, [], chunks) == Drain(f, buf)
      {
        ChunksAreDecoded(separator, [], chunks);
      }
    }
  }

  /**
   In either mode, how a stream is cut into chunks makes no difference to what `decode` reads and
   leaves over, exactly when no frame that is not UTF-8 has another complete frame behind it.
   */
  lemma ChunkIndependence(separator: Separator, buf: Bytes)
    ensures ChunksDoNotMatter(separator, buf) <==> OnlyLastMayBeInvalid(separator, buf)
  {
    var f := Messages(separator);
    FindsFrames(separator, f);
    Independence(f, buf);
    MayFailIsInvalid(separator, buf);
    CutsAreChunks(separator, buf);
  }

  /** A line that is not UTF-8 and an empty one: cut between them, the empty line is read; uncut, it is not. */
  lemma BadLineHidesTheNext()
    ensures !ChunksDoNotMatter(Sentinel(NEWLINE), [0xFF, NEWLINE, NEWLINE])
  {
    var buf: Bytes := [0xFF, NEWLINE, NEWLINE];
    LineEndIsFirst(buf, NEWLINE, 2);
    assert buf[2..] == [NEWLINE] && WithoutLast(buf[..2]) == [0xFF];
    LineEndIsFirst(buf[2..], NEWLINE, 1);
    assert !Utf8.Valid([0xFF]);
    ChunkIndependence(Sentinel(NEWLINE), buf);
  }

  // ---------------------------------------------------------------- reading on after an error

  /** What `decode` reports of a line: in byte mode a bad one too, so a reader may go on behind it. */
  function ReportOf(line: Bytes): Decoded {
    if Utf8.Valid(WithoutLast(line)) then Message(WithoutLast(line)) else InvalidUtf8
  }

  function Reports(byte: Byte): Framing<Decoded> { Framing(buf => LineEnd(buf, byte), line => Some(ReportOf(line))) }

  /** All that `decode` reports in byte mode, errors included, until it has nothing to report. */
  ghost function ReportsOf(byte: Byte, buf: Bytes): Drained<Decoded>
    decreases |buf|
  {
    var (report, rest) := Decode(Sentinel(byte), buf);
    if report.NotYet? then ([], rest) else Prepend(report, ReportsOf(byte, rest))
  }

  ghost function ReportChunks(byte: Byte, buf: Bytes, chunks: seq<Bytes>): Drained<Decoded>
    decreases |chunks|
  {
    if chunks == [] then ([], buf)
    else
      var now := ReportsOf(byte, buf + chunks[0]);
      Then(now, ReportChunks(byte, now.1, chunks[1..]))
  }

  lemma LineIsReported(byte: Byte, buf: Bytes)
    ensures match LineEnd(buf, byte)
      case None => Decode(Sentinel(byte), buf) == (NotYet, buf)
      case Some(n) => Decode(Sentinel(byte), buf) == (ReportOf(buf[..n]), buf[n..])
  {
    var end := LineEnd(buf, byte);
    if end.Some? {
      assert WithoutLast(buf[..end.value]) == buf[..end.value - 1];
    }
  }

  lemma {:induction false} DrainIsReporting(byte: Byte, buf: Bytes)
    requires Stable(Reports(byte))
    ensures Drain(Reports(byte), buf) == ReportsOf(byte, buf)
    decreases |buf|
  {
    LineIsReported(byte, buf);
    var end := LineEnd(buf, byte);
    if end.Some? { DrainIsReporting(byte, buf[end.value..]); }
  }

  /** A reader that takes something from every frame never loses one. */
  lemma {:induction false} NothingFails<R(!new)>(f: Framing<R>, buf: Bytes)
    requires Stable(f) && forall frame: Bytes :: f.read(frame).Some?
    ensures OnlyLastMayFail(f, buf)
    decreases |buf|
  {
    if f.find(buf).Some? { NothingFails(f, buf[f.find(buf).value..]); }
  }

  lemma {:induction false} ChunksAreReported(byte: Byte, buf: Bytes, chunks: seq<Bytes>)
    requires Stable(Reports(byte))
    ensures DrainChunks(Reports(byte), buf, chunks) == ReportChunks(byte, buf, chunks)
    decreases |chunks|
  {
    if chunks != [] {
      DrainIsReporting(byte, buf + chunks[0]);
      ChunksAreReported(byte, ReportsOf(byte, buf + chunks[0]).1, chunks[1..]);
    }
  }

  /** In byte mode a reader that goes on after errors gets the same reports however the stream is cut. */
  lemma LineChunksNeverMatter(byte: Byte, chunks: seq<Bytes>)
    ensures ReportChunks(byte, [], chunks) == ReportsOf(byte, Joined(chunks))
  {
    var f := Reports(byte);
    FindsFrames(Sentinel(byte), f);
    DrainIsReporting(byte, Joined(chunks));
    NothingFails(f, Joined(chunks));
    NoCutMatters(f, Joined(chunks));
    ChunksAreReported(byte, [], chunks);
  }
}
