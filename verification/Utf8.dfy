/** UTF-8 well-formedness as section 4 of RFC 3629 defines it (and `str::from_utf8` checks it). */
module Utf8 {
  import opened Basics

  predicate Tail(b: Byte) { 0x80 <= b <= 0xBF }

  /** Length of the well-formed character at the front of `s`, or 0 when there is none. */
  function Width(s: seq<Byte>): (w: nat)
    ensures w <= |s|
    ensures |s| > 0 && s[0] < 0x80 ==> w == 1
  {
    if |s| >= 1 && s[0] < 0x80 then 1
    else if |s| >= 2 && 0xC2 <= s[0] <= 0xDF && Tail(s[1]) then 2
    else if |s| >= 3 && Tail(s[1]) && Tail(s[2])
            && ((s[0] == 0xE0 && 0xA0 <= s[1]) || 0xE1 <= s[0] <= 0xEC
                || (s[0] == 0xED && s[1] <= 0x9F) || 0xEE <= s[0] <= 0xEF) then 3
    else if |s| >= 4 && Tail(s[1]) && Tail(s[2]) && Tail(s[3])
            && ((s[0] == 0xF0 && 0x90 <= s[1]) || 0xF1 <= s[0] <= 0xF3
                || (s[0] == 0xF4 && s[1] <= 0x8F)) then 4
    else 0
  }

  predicate Valid(s: seq<Byte>)
    decreases |s|
  {
    s == [] || (Width(s) > 0 && Valid(s[Width(s)..]))
  }

  /** The length of the longest beginning that is well formed. */
  function ValidUpTo(s: seq<Byte>): (n: nat)
    ensures n <= |s|
    decreases |s|
  {
    if Width(s) == 0 then 0 else Width(s) + ValidUpTo(s[Width(s)..])
  }

  /** ASCII bytes in front of a text neither make it valid nor spoil it. */
  lemma {:induction false} AsciiPrefix(a: seq<Byte>, s: seq<Byte>)
    requires forall i :: 0 <= i < |a| ==> a[i] < 0x80
    ensures Valid(a + s) == Valid(s)
  {
    if a == [] {
      assert a + s == s;
    } else {
      AsciiPrefix(a[1..], s);
      assert (a + s)[1..] == a[1..] + s;
    }
  }

  // ---------------------------------------------------------------- characters

  /** A Unicode scalar value. */
  type Scalar = c: int | 0 <= c < 0xD800 || 0xE000 <= c <= 0x10FFFF

  /** The bytes of a character, as section 3 of RFC 3629 lays them out. */
  function Encode(c: Scalar): seq<Byte> {
    if c < 0x80 then [c]
    else if c < 0x800 then [0xC0 + c / 0x40, 0x80 + c % 0x40]
    else if c < 0x10000 then [0xE0 + c / 0x40 / 0x40, 0x80 + c / 0x40 % 0x40, 0x80 + c % 0x40]
    else [0xF0 + c / 0x40 / 0x40 / 0x40, 0x80 + c / 0x40 / 0x40 % 0x40, 0x80 + c / 0x40 % 0x40, 0x80 + c % 0x40]
  }

  function EncodeAll(cs: seq<Scalar>): seq<Byte> {
    if cs == [] then [] else Encode(cs[0]) + EncodeAll(cs[1..])
  }

  /** A character's bytes are well formed, whatever follows them. */
  lemma EncodedIsWide(c: Scalar, rest: seq<Byte>)
    ensures Width(Encode(c) + rest) == |Encode(c)|
  {
    var s := Encode(c) + rest;
    assert forall i :: 0 <= i < |Encode(c)| ==> s[i] == Encode(c)[i];
  }

  /** Six more bits. */
  function More(high: nat, tail: Byte): nat
    requires Tail(tail)
    ensures More(high, tail) / 0x40 == high && More(high, tail) % 0x40 == tail as int - 0x80
  {
    high * 0x40 + (tail as int - 0x80)
  }

  /** The character whose bytes stand at the front. */
  lemma WideIsEncoded(s: seq<Byte>) returns (c: Scalar)
    requires Width(s) > 0
    ensures s[..Width(s)] == Encode(c)
  {
    var first: int := s[0];
    match Width(s)
    case 1 => c := first;
    case 2 => c := More(first - 0xC0, s[1]);
    case 3 =>
      var high := More(first - 0xE0, s[1]);
      c := More(high, s[2]);
    case _ =>
      var high := More(More(first - 0xF0, s[1]), s[2]);
      c := More(high, s[3]);
  }

  lemma EncodeAllOf(c: Scalar, rest: seq<Scalar>)
    ensures EncodeAll([c] + rest) == Encode(c) + EncodeAll(rest)
  {
    assert ([c] + rest)[1..] == rest;
  }

  lemma {:induction false} EncodedIsValid(cs: seq<Scalar>)
    ensures Valid(EncodeAll(cs))
  {
    if cs != [] {
      var head, rest := Encode(cs[0]), EncodeAll(cs[1..]);
      EncodedIsWide(cs[0], rest);
      assert (head + rest)[|head|..] == rest;
      EncodedIsValid(cs[1..]);
    }
  }

  lemma {:induction false} ValidIsEncoded(s: seq<Byte>) returns (cs: seq<Scalar>)
    requires Valid(s)
    ensures s == EncodeAll(cs)
    decreases |s|
  {
    if s == [] {
      cs := [];
    } else {
      var c := WideIsEncoded(s);
      var rest := ValidIsEncoded(s[Width(s)..]);
      cs := [c] + rest;
      EncodeAllOf(c, rest);
      assert s == s[..Width(s)] + s[Width(s)..];
    }
  }

  /** A byte string is valid exactly when it is the encoding of some characters. */
  lemma ValidIff(s: seq<Byte>)
    ensures Valid(s) <==> exists cs :: s == EncodeAll(cs)
  {
    if Valid(s) {
      var cs := ValidIsEncoded(s);
    }
    if cs :| s == EncodeAll(cs) {
      EncodedIsValid(cs);
    }
  }

  /** A beginning that holds the first character starts with it, and a beginning that is too short with none. */
  lemma WidthOfFront(s: seq<Byte>, k: nat)
    requires k <= |s|
    ensures Width(s[..k]) == if Width(s) <= k then Width(s) else 0
  {
    var front := s[..k];
    assert forall i :: 0 <= i < k ==> front[i] == s[i];
  }

  lemma ValidFront(s: seq<Byte>, k: nat)
    requires 0 < Width(s) <= k <= |s|
    ensures Valid(s[..k]) <==> Valid(s[Width(s)..][..k - Width(s)])
  {
    var w := Width(s);
    WidthOfFront(s, k);
    assert s[..k][w..] == s[w..][..k - w];
  }

  /** What stands before the first flaw is valid, and no longer beginning is. */
  lemma {:induction false} ValidUpToIsMost(s: seq<Byte>, k: nat)
    requires k <= |s|
    ensures Valid(s[..ValidUpTo(s)]) && (k > ValidUpTo(s) ==> !Valid(s[..k]))
    decreases |s|
  {
    var w := Width(s);
    if w == 0 {
      WidthOfFront(s, k);
    } else {
      var rest := s[w..];
      ValidUpToIsMost(rest, if w <= k then k - w else 0);
      ValidFront(s, ValidUpTo(s));
      if w <= k { ValidFront(s, k); }
    }
  }
}
