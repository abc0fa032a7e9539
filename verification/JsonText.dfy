/**
 JSON texts byte by byte, as sections 2, 4, 5 and 7 of RFC 8259 lay them out: every whitespace
 run, escape and separator of the text is a part of the tree, so each legal text of an object
 or array is the printed form of some tree.
 */
module JsonText {
  import opened Basics
  const BEGIN_OBJECT: Byte := 0x7B
  const END_OBJECT: Byte := 0x7D
  const BEGIN_ARRAY: Byte := 0x5B
  const END_ARRAY: Byte := 0x5D
  const QUOTATION_MARK: Byte := 0x22
  const REVERSE_SOLIDUS: Byte := 0x5C
  const COMMA: Byte := 0x2C
  const COLON: Byte := 0x3A

  /** Space, tab, line feed or carriage return. */
  predicate IsWs(b: Byte) { b == 0x20 || b == 0x09 || b == 0x0A || b == 0x0D }

  type Bytes = seq<Byte>

  /** One character of a string: as it is, after a backslash, or as four hexadecimal digits. */
  datatype StrUnit = Raw(byte: Byte) | Escape(byte: Byte) | Hex(digits: Bytes)

  datatype Label = Label(name: seq<StrUnit>, beforeColon: Bytes, afterColon: Bytes)

  /**
   `Plain` is a number or one of the words true, false and null; `Group` is an object when it is
   keyed and an array otherwise, with the whitespace behind its opening bracket.
   */
  datatype Json =
    | Plain(word: Bytes)
    | Str(units: seq<StrUnit>)
    | Group(keyed: bool, pad: Bytes, items: Items)

  /** The elements of an array (without labels) or the members of an object (with labels). */
  datatype Items = End | Item(before: Bytes, key: Option<Label>, value: Json, after: Bytes, rest: Items)

  predicate Blank(s: Bytes) { forall i :: 0 <= i < |s| ==> IsWs(s[i]) }

  /** A byte that is none of the structural characters, quote, backslash or whitespace. */
  predicate Ordinary(b: Byte) {
    && !IsWs(b) && b != BEGIN_OBJECT && b != END_OBJECT && b != BEGIN_ARRAY && b != END_ARRAY
    && b != QUOTATION_MARK && b != REVERSE_SOLIDUS && b != COMMA && b != COLON
  }

  predicate IsHexDigit(b: Byte) { 0x30 <= b <= 0x39 || 0x41 <= b <= 0x46 || 0x61 <= b <= 0x66 }

  predicate LegalUnit(u: StrUnit) {
    match u
    case Raw(b) => b >= 0x20 && b != QUOTATION_MARK && b != REVERSE_SOLIDUS
    case Escape(b) => b in {QUOTATION_MARK, REVERSE_SOLIDUS, 0x2F, 0x62, 0x66, 0x6E, 0x72, 0x74}
    case Hex(digits) => |digits| == 4 && forall i :: 0 <= i < 4 ==> IsHexDigit(digits[i])
  }

  predicate LegalStr(units: seq<StrUnit>) { forall i :: 0 <= i < |units| ==> LegalUnit(units[i]) }

  predicate Legal(v: Json)
    decreases v, 0
  {
    match v
    case Plain(word) => forall i :: 0 <= i < |word| ==> Ordinary(word[i])
    case Str(units) => LegalStr(units)
    case Group(keyed, pad, items) => Blank(pad) && LegalItems(items, keyed)
  }

  predicate LegalItems(items: Items, keyed: bool)
    decreases items, 0
  {
    match items
    case End => true
    case Item(before, key, value, after, rest) =>
      key.Some? == keyed && LegalEntry(before, key, value) && Blank(after) && LegalItems(rest, keyed)
  }

  predicate LegalEntry(before: Bytes, key: Option<Label>, value: Json)
    decreases value, 1
  {
    Blank(before) && LegalLabel(key) && Legal(value)
  }

  predicate LegalLabel(key: Option<Label>) {
    key.Some? ==> LegalStr(key.value.name) && Blank(key.value.beforeColon) && Blank(key.value.afterColon)
  }

  /** How many arrays and objects are open at once at the deepest point. */
  function Nesting(v: Json): nat {
    match v
    case Plain(_) => 0
    case Str(_) => 0
    case Group(_, _, items) => 1 + ItemsNesting(items)
  }

  function ItemsNesting(items: Items): nat {
    match items
    case End => 0
    case Item(_, _, value, _, rest) => Max(Nesting(value), ItemsNesting(rest))
  }

  function Max(a: nat, b: nat): nat { if a < b then b else a }

  function PrintUnit(u: StrUnit): Bytes {
    match u
    case Raw(b) => [b]
    case Escape(b) => [REVERSE_SOLIDUS, b]
    case Hex(digits) => [REVERSE_SOLIDUS, 0x75] + digits
  }

  function PrintUnits(units: seq<StrUnit>): Bytes {
    if units == [] then [] else PrintUnit(units[0]) + PrintUnits(units[1..])
  }

  function PrintStr(units: seq<StrUnit>): Bytes { [QUOTATION_MARK] + PrintUnits(units) + [QUOTATION_MARK] }

  function PrintLabel(key: Option<Label>): Bytes {
    match key
    case None => []
    case Some(l) => PrintStr(l.name) + (l.beforeColon + ([COLON] + l.afterColon))
  }

  function Print(v: Json): Bytes
    decreases v, 0
  {
    match v
    case Plain(word) => word
    case Str(units) => PrintStr(units)
    case Group(keyed, pad, items) => [Opening(keyed)] + (pad + PrintItems(items)) + [Closing(keyed)]
  }

  function Opening(keyed: bool): Byte { if keyed then BEGIN_OBJECT else BEGIN_ARRAY }
  function Closing(keyed: bool): Byte { if keyed then END_OBJECT else END_ARRAY }

  function PrintItems(items: Items): Bytes
    decreases items, 0
  {
    match items
    case End => []
    case Item(before, key, value, after, rest) =>
      PrintEntry(before, key, value) + ((after + Comma(rest)) + PrintItems(rest))
  }

  function PrintEntry(before: Bytes, key: Option<Label>, value: Json): Bytes
    decreases value, 1
  {
    before + PrintLabel(key) + Print(value)
  }

  function Comma(rest: Items): Bytes { if rest.End? then [] else [COMMA] }

  /** A JSON-RPC message: a legal object or array nested less than 2^32 deep. */
  predicate IsMessage(v: Json) {
    v.Group? && Legal(v) && Nesting(v) < 0x1_0000_0000
  }

  /** Whitespace among the first `n` bytes of `s`, inside strings or outside. */
  function BlanksIn(s: Bytes, n: nat): nat
    requires n <= |s|
  {
    if n == 0 then 0 else BlanksIn(s, n - 1) + if IsWs(s[n - 1]) then 1 else 0
  }

  /** Bytes of `s` that are not whitespace. */
  function NonBlanks(s: Bytes): int { |s| - BlanksIn(s, |s|) }

  lemma {:induction false} BlanksConcat(a: Bytes, b: Bytes, more: Bytes, n: nat)
    requires n <= |b|
    ensures BlanksIn(a + b + more, |a| + n) == BlanksIn(a, |a|) + BlanksIn(b, n)
    decreases |a| + n
  {
    var s := a + b + more;
    if n > 0 {
      BlanksConcat(a, b, more, n - 1);
      assert s[|a| + n - 1] == b[n - 1];
    } else if |a| > 0 {
      var c := a[..|a| - 1];
      assert c + [a[|a| - 1]] == a;
      BlanksPrefix(a, s, |a|);
    }
  }

  lemma {:induction false} BlanksPrefix(a: Bytes, s: Bytes, n: nat)
    requires n <= |a| && a <= s
    ensures BlanksIn(s, n) == BlanksIn(a, n)
  {
    if n > 0 { BlanksPrefix(a, s, n - 1); }
  }

  lemma {:induction false} BlankIsAllBlanks(s: Bytes, n: nat)
    requires Blank(s) && n <= |s|
    ensures BlanksIn(s, n) == n
  {
    if n > 0 { BlankIsAllBlanks(s, n - 1); }
  }

  lemma {:induction false} BlanksAtMost(s: Bytes, n: nat)
    requires n <= |s|
    ensures BlanksIn(s, n) <= n
    ensures n > 0 && !IsWs(s[0]) ==> BlanksIn(s, n) <= n - 1
  {
    if n > 0 { BlanksAtMost(s, n - 1); }
  }

  /** A message has its two brackets at least. */
  lemma MessageIsNotBlank(v: Json)
    requires IsMessage(v)
    ensures NonBlanks(Print(v)) >= 2
  {
    var p := Print(v);
    BlanksAtMost(p, |p| - 1);
  }
}
