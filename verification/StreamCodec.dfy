/**
 The codec of the streaming transports (ipc, tcp).

 `Separator.Empty` finds the end of a JSON message by scanning brackets, strings, escapes and
 whitespace; `Separator.Sentinel` cuts at a separator byte.
 */
module StreamCodec {
  import opened Basics
  import Utf8

  datatype Separator = Empty | Sentinel(byte: Byte)

  const OPEN_BRACE: Byte := 0x7B
  const CLOSE_BRACE: Byte := 0x7D
  const OPEN_BRACKET: Byte := 0x5B
  const CLOSE_BRACKET: Byte := 0x5D
  const QUOTE: Byte := 0x22
  const BACKSLASH: Byte := 0x5C
  const NEWLINE: Byte := 0x0A

  predicate IsWhitespace(b: Byte) { b == 0x0D || b == 0x0A || b == 0x20 || b == 0x09 }
  predicate IsOpening(b: Byte) { b == OPEN_BRACE || b == OPEN_BRACKET }
  predicate IsClosing(b: Byte) { b == CLOSE_BRACE || b == CLOSE_BRACKET }

  const MAX_DEPTH: int := 0x7FFF_FFFF
  const MIN_DEPTH: int := -0x8000_0000

  /** The nesting counter is a 32-bit signed integer. */
  type Depth = d: int | MIN_DEPTH <= d <= MAX_DEPTH

  function Deeper(d: Depth): Depth { if d == MAX_DEPTH then MIN_DEPTH else d + 1 }
  function Shallower(d: Depth): Depth { if d == MIN_DEPTH then MAX_DEPTH else d - 1 }

  /** The local variables of the scanning loop. */
  datatype Scan = Scan(depth: Depth, inStr: bool, escaped: bool, start: nat, whitespaces: nat)

  const FRESH := Scan(0, false, false, 0, 0)

  /** One byte of the loop, at buffer position `idx`. */
  function Feed(s: Scan, b: Byte, idx: nat): Scan {
    var moved :=
      if IsOpening(b) && !s.inStr then
        s.(start := if s.depth == 0 then idx else s.start, depth := Deeper(s.depth))
      else if IsClosing(b) && !s.inStr then s.(depth := Shallower(s.depth))
      else if b == QUOTE && !s.escaped then s.(inStr := !s.inStr)
      else if IsWhitespace(b) then s.(whitespaces := s.whitespaces + 1)
      else s;
    moved.(escaped := b == BACKSLASH && !s.escaped && moved.inStr)
  }

  /** The test that ends a message after the byte at `idx`. */
  predicate Complete(s: Scan, idx: nat) {
    s.depth == 0 && idx != s.start && idx - s.start + 1 > s.whitespaces
  }

  /** Where the first message in `buf` ends, when scanning goes on at `idx` in state `s`. */
  function FrameEnd(buf: seq<Byte>, idx: nat, s: Scan): (r: Option<nat>)
    requires idx <= |buf|
    ensures r.Some? ==> idx < r.value <= |buf|
    decreases |buf| - idx
  {
    if idx == |buf| then None
    else
      var next := Feed(s, buf[idx], idx);
      if Complete(next, idx) then Some(idx + 1) else FrameEnd(buf, idx + 1, next)
  }

  function FirstFrame(buf: seq<Byte>): (r: Option<nat>)
    ensures r.Some? ==> 0 < r.value <= |buf|
  {
    FrameEnd(buf, 0, FRESH)
  }

  /** Index of the first `b` in `s`. */
  function Position(s: seq<Byte>, b: Byte): (r: Option<nat>)
    ensures r.None? <==> b !in s
    ensures r.Some? ==> r.value < |s| && s[r.value] == b
    ensures forall i :: 0 <= i < |s| && s[i] == b ==> r.Some? && r.value <= i
  {
    if s == [] then None
    else if s[0] == b then Some(0)
    else
      match Position(s[1..], b)
      case None => None
      case Some(i) => Some(i + 1)
  }

  /** What one call of `decode` reports: a message, nothing yet, or an I/O error. */
  datatype Decoded = Message(text: seq<Byte>) | NotYet | InvalidUtf8

  /** One call of `decode`: the report and the bytes left in the buffer. */
  function Decode(separator: Separator, buf: seq<Byte>): (Decoded, seq<Byte>) {
    match separator
    case Sentinel(byte) =>
      (match Position(buf, byte)
       case None => (NotYet, buf)
       case Some(i) => (if Utf8.Valid(buf[..i]) then Message(buf[..i]) else InvalidUtf8, buf[i + 1..]))
    case Empty =>
      (match FirstFrame(buf)
       case None => (NotYet, buf)
       case Some(n) => (if Utf8.Valid(buf[..n]) then Message(buf[..n]) else NotYet, buf[n..]))
  }

  function Envelope(separator: Separator, message: seq<Byte>): seq<Byte> {
    match separator
    case Sentinel(byte) => message + [byte]
    case Empty => message
  }

  class Buffer {
    var bytes: seq<Byte>
    constructor (bytes: seq<Byte>)
      ensures this.bytes == bytes
    {
      this.bytes := bytes;
    }
  }

  class Codec {
    const incoming: Separator
    const outgoing: Separator

    constructor (incoming: Separator, outgoing: Separator)
      ensures this.incoming == incoming && this.outgoing == outgoing
    {
      this.incoming := incoming;
      this.outgoing := outgoing;
    }

    method DecodeFrom(buf: Buffer) returns (r: Decoded)
      modifies buf
      ensures (r, buf.bytes) == Decode(incoming, old(buf.bytes))
    {
      match incoming {
        case Sentinel(byte) =>
          var found := Position(buf.bytes, byte);
          match found {
            case None => r := NotYet;
            case Some(i) =>
              var line := buf.bytes[..i];
              buf.bytes := buf.bytes[i + 1..];
              r := if Utf8.Valid(line) then Message(line) else InvalidUtf8;
          }
        case Empty =>
          r := ScanFrom(buf);
      }
    }

    /** The scanning half of `decode`. */
    method ScanFrom(buf: Buffer) returns (r: Decoded)
      modifies buf
      ensures (r, buf.bytes) == Decode(Empty, old(buf.bytes))
    {
      var depth: Depth := 0;
      var inStr := false;
      var escaped := false;
      var start := 0;
      var whitespaces := 0;
      for idx := 0 to |buf.bytes|
        invariant buf.bytes == old(buf.bytes)
        invariant 0 <= start <= idx && 0 <= whitespaces
        invariant FirstFrame(buf.bytes) == FrameEnd(buf.bytes, idx, Scan(depth, inStr, escaped, start, whitespaces))
      {
        var byte := buf.bytes[idx];
        if IsOpening(byte) && !inStr {
          if depth == 0 {
            start := idx;
          }
          depth := Deeper(depth);
        } else if IsClosing(byte) && !inStr {
          depth := Shallower(depth);
        } else if byte == QUOTE && !escaped {
          inStr := !inStr;
        } else if IsWhitespace(byte) {
          whitespaces := whitespaces + 1;
        }
        if byte == BACKSLASH && !escaped && inStr {
          escaped := true;
        } else {
          escaped := false;
        }
        if depth == 0 && idx != start && idx - start + 1 > whitespaces {
          var frame := buf.bytes[..idx + 1];
          buf.bytes := buf.bytes[idx + 1..];
          r := if Utf8.Valid(frame) then Message(frame) else NotYet;
          return;
        }
      }
      r := NotYet;
    }

    method EncodeTo(message: seq<Byte>, buf: Buffer)
      modifies buf
      ensures buf.bytes == old(buf.bytes) + Envelope(outgoing, message)
    {
      var payload := message;
      if outgoing.Sentinel? {
        payload := payload + [outgoing.byte];
      }
      buf.bytes := buf.bytes + payload;
    }
  }
}
