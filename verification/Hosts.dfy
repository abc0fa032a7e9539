/** `Host` and `Origin` values and their printed forms, over ASCII strings. */
module Hosts {
  import opened Basics
  import opened Splitting

  // ---------------------------------------------------------------- lower case and ports

  function LowerChar(c: char): char { if 'A' <= c <= 'Z' then (c as int + 32) as char else c }

  function Lower(s: string): (r: string)
    ensures |r| == |s| && forall i :: 0 <= i < |s| ==> r[i] == LowerChar(s[i])
  {
    if s == [] then [] else [LowerChar(s[0])] + Lower(s[1..])
  }

  predicate IsLower(s: string) { forall c :: c in s ==> !('A' <= c <= 'Z') }

  lemma LowerOfLower(s: string)
    ensures IsLower(Lower(s))
    ensures IsLower(s) ==> Lower(s) == s
    ensures forall c :: !('A' <= c <= 'Z') && !('a' <= c <= 'z') ==> (c in s <==> c in Lower(s))
  {
    var r := Lower(s);
    assert forall i :: 0 <= i < |s| ==> s[i] in s;
    forall c | !('A' <= c <= 'Z') && !('a' <= c <= 'z')
      ensures c in s <==> c in r
    {
      if c in s {
        var i :| 0 <= i < |s| && s[i] == c;
        assert r[i] == c;
      }
    }
  }

  type U16 = n: int | 0 <= n < 0x1_0000

  predicate IsDigit(c: char) { '0' <= c <= '9' }

  predicate AllDigits(s: string) { forall i :: 0 <= i < |s| ==> IsDigit(s[i]) }

  function DigitValue(c: char): nat
    requires IsDigit(c)
  {
    c as int - '0' as int
  }

  function DigitsValue(s: string): (n: nat)
    requires AllDigits(s)
  {
    if s == [] then 0
    else 10 * DigitsValue(s[..|s| - 1]) + DigitValue(s[|s| - 1])
  }

  /** `str::parse::<u16>`: one plus sign and leading zeros are allowed. */
  function ParseU16(s: string): Option<U16> {
    var digits := if s != [] && s[0] == '+' then s[1..] else s;
    if digits == [] || !AllDigits(digits) then None
    else if DigitsValue(digits) < 0x1_0000 then Some(DigitsValue(digits))
    else None
  }

  function Decimal(n: nat): (s: string)
    ensures s != [] && AllDigits(s) && (n > 0 ==> s[0] != '0')
  {
    var last := ('0' as int + n % 10) as char;
    if n < 10 then [last] else Decimal(n / 10) + [last]
  }

  lemma {:induction false} DecimalIsRead(n: nat)
    ensures DigitsValue(Decimal(n)) == n
  {
    if n >= 10 {
      DecimalIsRead(n / 10);
      var s := Decimal(n);
      assert s[..|s| - 1] == Decimal(n / 10);
    }
  }

  /** A port as it may be written: perhaps with a plus sign, then with any number of zeros in front. */
  function Written(plus: bool, zeros: nat, n: nat): string {
    (if plus then "+" else "") + Zeros(zeros) + Decimal(n)
  }

  function Zeros(zeros: nat): string { seq(zeros, _ => '0') }

  lemma {:induction false} ZerosAreNothing(zeros: nat, n: nat)
    ensures AllDigits(Zeros(zeros) + Decimal(n))
    ensures DigitsValue(Zeros(zeros) + Decimal(n)) == n
    decreases n, zeros
  {
    var s := Zeros(zeros) + Decimal(n);
    if n >= 10 {
      ZerosAreNothing(zeros, n / 10);
      assert s[..|s| - 1] == Zeros(zeros) + Decimal(n / 10);
    } else if zeros > 0 {
      ZerosAreNothing(zeros - 1, 0);
      assert s[..|s| - 1] == Zeros(zeros - 1) + Decimal(0);
    } else {
      assert s[..|s| - 1] == [];
    }
  }

  lemma DecimalSnoc(m: nat, c: char)
    requires IsDigit(c)
    ensures Decimal(10 * m + DigitValue(c)) == if m == 0 then [c] else Decimal(m) + [c]
  {
    var n := 10 * m + DigitValue(c);
    assert n / 10 == m && n % 10 == DigitValue(c);
  }

  lemma WrittenSnoc(k: nat, m: nat, c: char)
    requires IsDigit(c)
    ensures Zeros(k) + Decimal(m) + [c] == Zeros(if m == 0 then k + 1 else k) + Decimal(10 * m + DigitValue(c))
  {
    DecimalSnoc(m, c);
    if m == 0 {
      assert Zeros(k) + Decimal(0) == Zeros(k + 1);
    } else {
      assert Zeros(k) + Decimal(m) + [c] == Zeros(k) + (Decimal(m) + [c]);
    }
  }

  lemma {:induction false} DigitsAreWritten(s: string) returns (zeros: nat)
    requires s != [] && AllDigits(s)
    ensures s == Zeros(zeros) + Decimal(DigitsValue(s))
  {
    var front, last := s[..|s| - 1], s[|s| - 1];
    if front == [] {
      zeros := 0;
      DecimalSnoc(0, last);
      assert s == Zeros(0) + [last];
    } else {
      var m := DigitsValue(front);
      var k := DigitsAreWritten(front);
      zeros := if m == 0 then k + 1 else k;
      WrittenSnoc(k, m, last);
      assert s == front + [last];
    }
  }

  /** A port is read as the number it writes, and nothing else is a port. */
  lemma PortReadIff(s: string, n: U16)
    ensures ParseU16(s) == Some(n) <==> exists plus, zeros :: s == Written(plus, zeros, n)
  {
    if ParseU16(s) == Some(n) {
      var plus := s != [] && s[0] == '+';
      var zeros := DigitsAreWritten(if plus then s[1..] else s);
      assert s == Written(plus, zeros, n);
    }
    if plus, zeros :| s == Written(plus, zeros, n) {
      WrittenIsRead(plus, zeros, n);
    }
  }

  lemma WrittenIsRead(plus: bool, zeros: nat, n: U16)
    ensures ParseU16(Written(plus, zeros, n)) == Some(n)
  {
    var s, digits := Written(plus, zeros, n), Zeros(zeros) + Decimal(n);
    ZerosAreNothing(zeros, n);
    assert digits[0] in digits;
    assert plus ==> s[1..] == digits;
    assert !plus ==> s == digits;
  }

  lemma PortIsRead(n: U16)
    ensures ParseU16(Decimal(n)) == Some(n)
  {
    DecimalIsRead(n);
    assert Decimal(n)[0] in Decimal(n);
  }

  // ---------------------------------------------------------------- hosts

  datatype Port = NoPort | Pattern(text: string) | Fixed(n: U16)

  datatype Host = Host(hostname: string, port: Port)

  /** Without a protocol in front and a path behind, in lower case. */
  function PreProcess(host: string): string {
    var (protocol, rest) := Cut(host, SLASHES);
    var host := if rest.Some? then Head(rest.value, SLASHES) else protocol;
    Lower(Head(host, "/"))
  }

  function NewHost(hostname: string, port: Port): Host { Host(PreProcess(hostname), port) }

  function ParsePort(text: string): Port {
    match ParseU16(text)
    case Some(n) => Fixed(n)
    case None => Pattern(text)
  }

  function ParseHost(text: string): Host {
    var (host, rest) := Cut(PreProcess(text), ":");
    NewHost(host, if rest.Some? then ParsePort(Head(rest.value, ":")) else NoPort)
  }

  function PrintPort(port: Port): string {
    match port
    case Fixed(n) => ":" + Decimal(n)
    case Pattern(text) => ":" + text
    case NoPort => ""
  }

  function PrintHost(h: Host): string { h.hostname + PrintPort(h.port) }

  lemma PortIsBare(n: U16)
    ensures Bare(Decimal(n)) && ParsePort(Decimal(n)) == Fixed(n)
  {
    PortIsRead(n);
  }

  /** Free of the characters at which a host is cut, and in lower case. */
  predicate Bare(s: string) { ':' !in s && '/' !in s && IsLower(s) }

  predicate CanonicalHost(h: Host) {
    Bare(h.hostname) && (h.port.Pattern? ==> Bare(h.port.text) && ParseU16(h.port.text) == None)
  }

  lemma PreProcessed(s: string)
    ensures IsLower(PreProcess(s)) && '/' !in PreProcess(s)
    ensures '/' !in s && IsLower(s) ==> PreProcess(s) == s
  {
    var (protocol, rest) := Cut(s, SLASHES);
    var host := if rest.Some? then Head(rest.value, SLASHES) else protocol;
    HeadWithoutChar(host, '/');
    LowerOfLower(Head(host, "/"));
    if '/' !in s {
      NoSlashNoSlashes(s);
      FreeWithout(s, "/");
    }
  }

  /** Whatever is parsed, the host is canonical. */
  lemma ParsedHostIsCanonical(text: string)
    ensures CanonicalHost(ParseHost(text))
  {
    var s := PreProcess(text);
    PreProcessed(text);
    var (host, rest) := Cut(s, ":");
    HeadWithoutChar(s, ':');
    PreProcessed(host);
    if rest.Some? {
      PartsOf(s, ":");
      HeadWithoutChar(rest.value, ':');
    }
  }

  lemma BareHostIsRead(hostname: string)
    requires Bare(hostname)
    ensures ParseHost(hostname) == Host(hostname, NoPort)
    ensures PrintHost(Host(hostname, NoPort)) == hostname
  {
    PreProcessed(hostname);
    FreeWithout(hostname, ":");
  }

  lemma HostWithPortIsRead(hostname: string, port: string)
    requires Bare(hostname) && Bare(port)
    ensures ParseHost(hostname + ":" + port) == Host(hostname, ParsePort(port))
  {
    PreProcessed(hostname + ":" + port);
    PreProcessed(hostname);
    CutAt(hostname, ":", port);
    FreeWithout(port, ":");
  }

  lemma PrintedPortIsRead(hostname: string, port: Port, text: string)
    requires Bare(hostname) && Bare(text) && PrintPort(port) == ":" + text && ParsePort(text) == port
    ensures ParseHost(PrintHost(Host(hostname, port))) == Host(hostname, port)
  {
    HostWithPortIsRead(hostname, text);
    assert hostname + (":" + text) == hostname + ":" + text;
  }

  lemma CanonicalHostIsRead(h: Host)
    requires CanonicalHost(h)
    ensures ParseHost(PrintHost(h)) == h
  {
    match h.port {
      case NoPort => BareHostIsRead(h.hostname);
      case Fixed(n) =>
        PortIsBare(n);
        PrintedPortIsRead(h.hostname, h.port, Decimal(n));
      case Pattern(text) => PrintedPortIsRead(h.hostname, h.port, text);
    }
  }

  lemma CanonicalPrint(h: Host)
    requires CanonicalHost(h)
    ensures '/' !in PrintHost(h)
  {
  }

  /** Printing loses nothing exactly of the canonical hosts, whichever way they were made. */
  lemma HostRoundTripIff(h: Host)
    ensures ParseHost(PrintHost(h)) == h <==> CanonicalHost(h)
  {
    ParsedHostIsCanonical(PrintHost(h));
    if CanonicalHost(h) {
      CanonicalHostIsRead(h);
    }
  }

  /** Parsing again what a parsed host prints changes nothing. */
  lemma ParsePrintParseHost(text: string)
    ensures ParseHost(PrintHost(ParseHost(text))) == ParseHost(text)
  {
    ParsedHostIsCanonical(text);
    CanonicalHostIsRead(ParseHost(text));
  }

  // ---------------------------------------------------------------- origins

  datatype Protocol = Http | Https | Custom(name: string)

  datatype Origin = Origin(protocol: Protocol, host: Host)

  function ParseOrigin(data: string): Origin {
    var (front, rest) := Cut(data, SLASHES);
    if rest.None? then Origin(Http, ParseHost(front))
    else
      var proto := Lower(front);
      var protocol := if proto == "http" then Http else if proto == "https" then Https else Custom(proto);
      Origin(protocol, ParseHost(Head(rest.value, SLASHES)))
  }

  function PrintProtocol(p: Protocol): string {
    match p
    case Http => "http"
    case Https => "https"
    case Custom(name) => name
  }

  function PrintOrigin(o: Origin): string { PrintProtocol(o.protocol) + SLASHES + PrintHost(o.host) }

  predicate CanonicalOrigin(o: Origin) {
    && CanonicalHost(o.host)
    && (o.protocol.Custom? ==>
          && IsLower(o.protocol.name) && Free(o.protocol.name, SLASHES)
          && o.protocol.name != "http" && o.protocol.name != "https")
  }

  lemma {:induction false} LowerStaysFree(s: string)
    requires Free(s, SLASHES)
    ensures Free(Lower(s), SLASHES)
  {
    if s != [] {
      var r := Lower(s);
      LowerStaysFree(s[1..]);
      assert r[1..] == Lower(s[1..]);
      StartsWithSlashes(s);
      StartsWithSlashes(r);
    }
  }

  lemma ParsedOriginIsCanonical(data: string)
    ensures CanonicalOrigin(ParseOrigin(data))
  {
    var (front, rest) := Cut(data, SLASHES);
    ParsedHostIsCanonical(if rest.None? then front else Head(rest.value, SLASHES));
    HeadIsFree(data, SLASHES);
    LowerStaysFree(front);
    LowerOfLower(front);
  }

  lemma ShortProtocols()
    ensures Free("http", SLASHES) && Free("https", SLASHES) && IsLower("http") && IsLower("https")
  {
    FreeWithout("http", SLASHES);
    FreeWithout("https", SLASHES);
  }

  lemma CanonicalOriginIsRead(o: Origin)
    requires CanonicalOrigin(o)
    ensures ParseOrigin(PrintOrigin(o)) == o
  {
    var name, host := PrintProtocol(o.protocol), PrintHost(o.host);
    ShortProtocols();
    CutAtSlashes(name, host);
    LowerOfLower(name);
    CanonicalHostIsRead(o.host);
    CanonicalPrint(o.host);
    NoSlashNoSlashes(host);
  }

  lemma OriginRoundTripIff(o: Origin)
    ensures ParseOrigin(PrintOrigin(o)) == o <==> CanonicalOrigin(o)
  {
    ParsedOriginIsCanonical(PrintOrigin(o));
    if CanonicalOrigin(o) {
      CanonicalOriginIsRead(o);
    }
  }

  lemma ParsePrintParseOrigin(data: string)
    ensures ParseOrigin(PrintOrigin(ParseOrigin(data))) == ParseOrigin(data)
  {
    ParsedOriginIsCanonical(data);
    CanonicalOriginIsRead(ParseOrigin(data));
  }

  /** A host made from a name with a port in it is not what its printed form says. */
  lemma PortInTheName(name: string)
    requires IsLower(name) && '/' !in name && ':' in name
    ensures var h := NewHost(name, NoPort); ParseHost(PrintHost(h)) != h
  {
    PreProcessed(name);
    HostRoundTripIff(NewHost(name, NoPort));
  }

  // ---------------------------------------------------------------- which part of a text is the host

  /** What is cut at the first "://" behind a host and a slash still begins with them. */
  lemma {:induction false} HeadKeepsHost(host: string, path: string)
    requires '/' !in host && (host != [] ==> host[|host| - 1] != ':')
    ensures Head(host + "/" + path, SLASHES) == host + "/" + Head(path, SLASHES)
  {
    var s := host + "/" + path;
    StartsWithSlashes(s);
    if host == [] {
      assert s[1..] == path;
    } else {
      var next := host[1..];
      assert s[1..] == next + "/" + path;
      assert |host| > 1 ==> s[1] == host[1];
      HeadKeepsHost(next, path);
      assert host == [host[0]] + next;
    }
  }

  /** The host of an address stands between the protocol and the first slash behind it. */
  lemma PreProcessAddress(protocol: string, host: string, path: string)
    requires Free(protocol, SLASHES) && '/' !in host && (host != [] ==> host[|host| - 1] != ':')
    ensures PreProcess(protocol + SLASHES + (host + "/" + path)) == Lower(host)
    ensures PreProcess(protocol + SLASHES + host) == Lower(host)
  {
    CutAtSlashes(protocol, host + "/" + path);
    HeadKeepsHost(host, path);
    CutAt(host, "/", Head(path, SLASHES));
    CutAtSlashes(protocol, host);
    NoSlashNoSlashes(host);
    FreeWithout(host, "/");
  }

  /** Without a protocol, it stands before the first slash. */
  lemma PreProcessBare(host: string, path: string)
    requires '/' !in host && Free(host + "/" + path, SLASHES)
    ensures PreProcess(host + "/" + path) == Lower(host)
  {
    FreeIsWhole(host + "/" + path, SLASHES);
    CutAt(host, "/", path);
  }

  lemma LowerConcat(a: string, b: string)
    ensures Lower(a + b) == Lower(a) + Lower(b)
  {
    var whole, parts := Lower(a + b), Lower(a) + Lower(b);
    assert forall i :: 0 <= i < |whole| ==> whole[i] == parts[i];
  }

  lemma LowerPort(name: string, port: U16)
    requires ':' !in name && '/' !in name
    ensures Lower(name + ":" + Decimal(port)) == Lower(name) + ":" + Decimal(port)
    ensures Bare(Lower(name)) && Bare(Decimal(port))
  {
    LowerOfLower(name);
    PortIsBare(port);
    LowerOfLower(Decimal(port));
    LowerOfLower(":");
    LowerConcat(name + ":", Decimal(port));
    LowerConcat(name, ":");
  }

  lemma BarePortUnprocessed(name: string, port: string)
    requires Bare(name) && Bare(port)
    ensures PreProcess(name + ":" + port) == name + ":" + port
  {
    PreProcessed(name + ":" + port);
  }

  lemma HostOf(text: string, name: string, port: U16)
    requires ':' !in name && '/' !in name && PreProcess(text) == Lower(name + ":" + Decimal(port))
    ensures ParseHost(text) == Host(Lower(name), Fixed(port))
  {
    var plain := Lower(name) + ":" + Decimal(port);
    LowerPort(name, port);
    PortIsBare(port);
    BarePortUnprocessed(Lower(name), Decimal(port));
    HostWithPortIsRead(Lower(name), Decimal(port));
    assert PreProcess(text) == PreProcess(plain);
  }

  /** A name with a port, neither of which holds a slash, and does not end with a colon. */
  lemma NameAndPort(name: string, port: U16)
    requires '/' !in name
    ensures var host := name + ":" + Decimal(port); '/' !in host && host[|host| - 1] != ':'
  {
    PortIsBare(port);
    var host := name + ":" + Decimal(port);
    assert host[|host| - 1] == Decimal(port)[|Decimal(port)| - 1];
    assert Decimal(port)[|Decimal(port)| - 1] in Decimal(port);
  }

  /** An address with a protocol, a name, a port and a path is read as those, in lower case, without the path. */
  lemma AddressIsRead(protocol: string, name: string, port: U16, path: string)
    requires Free(protocol, SLASHES) && ':' !in name && '/' !in name
    ensures ParseHost(protocol + SLASHES + (name + ":" + Decimal(port) + "/" + path)) == Host(Lower(name), Fixed(port))
  {
    var host := name + ":" + Decimal(port);
    NameAndPort(name, port);
    PreProcessAddress(protocol, host, path);
    HostOf(protocol + SLASHES + (host + "/" + path), name, port);
  }

  /** The name of a new host may be an address too. */
  lemma AddressIsNamed(protocol: string, name: string, path: string, port: Port)
    requires Free(protocol, SLASHES) && '/' !in name && (name != [] ==> name[|name| - 1] != ':')
    ensures NewHost(protocol + SLASHES + (name + "/" + path), port) == Host(Lower(name), port)
  {
    PreProcessAddress(protocol, name, path);
  }

  lemma OriginParts(protocol: string, rest: string)
    requires Free(protocol, SLASHES)
    ensures var origin := ParseOrigin(protocol + SLASHES + rest);
      origin.host == ParseHost(Head(rest, SLASHES)) && PrintProtocol(origin.protocol) == Lower(protocol)
  {
    CutAtSlashes(protocol, rest);
  }

  /** So is an origin, with its protocol. */
  lemma OriginIsRead(protocol: string, name: string, port: U16, path: string)
    requires Free(protocol, SLASHES) && ':' !in name && '/' !in name
    ensures var origin := ParseOrigin(protocol + SLASHES + (name + ":" + Decimal(port) + "/" + path));
      origin.host == Host(Lower(name), Fixed(port)) && PrintProtocol(origin.protocol) == Lower(protocol)
  {
    OriginParts(protocol, name + ":" + Decimal(port) + "/" + path);
    HostBehindProtocol(name, port, path);
  }

  /** An origin without a protocol is one of "http". */
  lemma ProtocolDefaults(data: string)
    requires Free(data, SLASHES)
    ensures ParseOrigin(data) == ParseOrigin("http" + SLASHES + data)
  {
    ShortProtocols();
    CutAtSlashes("http", data);
    FreeIsWhole(data, SLASHES);
    LowerOfLower("http");
  }

  lemma HostBehindProtocol(name: string, port: U16, path: string)
    requires ':' !in name && '/' !in name
    ensures ParseHost(Head(name + ":" + Decimal(port) + "/" + path, SLASHES)) == Host(Lower(name), Fixed(port))
  {
    var host, rest := name + ":" + Decimal(port), Head(path, SLASHES);
    NameAndPort(name, port);
    HeadKeepsHost(host, path);
    HeadIsFree(host + "/" + path, SLASHES);
    PreProcessBare(host, rest);
    HostOf(host + "/" + rest, name, port);
  }

  // ---------------------------------------------------------------- case does not matter

  predicate SameLetter(a: char, b: char) { 'A' <= a <= 'Z' && b as int == a as int + 32 }

  predicate SameButCase(a: string, b: string) {
    |a| == |b| && forall i :: 0 <= i < |a| ==> a[i] == b[i] || SameLetter(a[i], b[i]) || SameLetter(b[i], a[i])
  }

  predicate Letterless(s: string) { forall c :: c in s ==> !('A' <= c <= 'Z') && !('a' <= c <= 'z') }

  lemma {:induction false} CutSameButCase(a: string, b: string, sep: string)
    requires SameButCase(a, b) && sep != [] && Letterless(sep)
    ensures SameButCase(Cut(a, sep).0, Cut(b, sep).0)
    ensures Cut(a, sep).1.Some? <==> Cut(b, sep).1.Some?
    ensures Cut(a, sep).1.Some? ==> SameButCase(Cut(a, sep).1.value, Cut(b, sep).1.value)
  {
    assert forall i :: 0 <= i < |sep| ==> sep[i] in sep;
    assert sep <= a <==> sep <= b;
    if !(sep <= a) && a != [] {
      CutSameButCase(a[1..], b[1..], sep);
    }
  }

  lemma LowerSame(a: string, b: string)
    requires SameButCase(a, b)
    ensures Lower(a) == Lower(b)
  {
    var x, y := Lower(a), Lower(b);
    assert forall i :: 0 <= i < |a| ==> LowerChar(a[i]) == LowerChar(b[i]);
    assert forall i :: 0 <= i < |x| ==> x[i] == y[i];
  }

  lemma PreProcessSame(a: string, b: string)
    requires SameButCase(a, b)
    ensures PreProcess(a) == PreProcess(b)
  {
    CutSameButCase(a, b, SLASHES);
    var (front, rest) := Cut(a, SLASHES);
    var (front', rest') := Cut(b, SLASHES);
    if rest.Some? { CutSameButCase(rest.value, rest'.value, SLASHES); }
    var host := if rest.Some? then Head(rest.value, SLASHES) else front;
    var host' := if rest'.Some? then Head(rest'.value, SLASHES) else front';
    CutSameButCase(host, host', "/");
    LowerSame(Head(host, "/"), Head(host', "/"));
  }

  lemma HostSameButCase(a: string, b: string)
    requires SameButCase(a, b)
    ensures ParseHost(a) == ParseHost(b)
  {
    PreProcessSame(a, b);
  }

  /** Texts that differ only in case are the same host and the same origin. */
  lemma CaseDoesNotMatter(a: string, b: string)
    requires SameButCase(a, b)
    ensures ParseHost(a) == ParseHost(b) && ParseOrigin(a) == ParseOrigin(b)
  {
    HostSameButCase(a, b);
    CutSameButCase(a, b, SLASHES);
    var (front, rest) := Cut(a, SLASHES);
    var (front', rest') := Cut(b, SLASHES);
    LowerSame(front, front');
    if rest.Some? {
      CutSameButCase(rest.value, rest'.value, SLASHES);
      HostSameButCase(Head(rest.value, SLASHES), Head(rest'.value, SLASHES));
    } else {
      HostSameButCase(front, front');
    }
  }
}
