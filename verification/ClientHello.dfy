/**
 * The body of a TLS ClientHello (section 4.1.2 of RFC 8446) as the probe reads
 * it: its server name (section 3 of RFC 6066) and its application protocols
 * (section 3.1 of RFC 7301), and the encoding those bytes come from.
 */
module ClientHello {
  import opened Bytes
  import opened Options
  import opened ServerName

  const MAX_EXTENSIONS := 256
  const MAX_PROTOCOLS := 256
  const SERVER_NAME := 0
  const ALPN := 16
  const HOST_NAME := 0

  datatype Error = Malformed | TooLarge | Truncated

  datatype Result<T> = Ok(value: T) | Err(error: Error)

  datatype Info = Info(serverName: Bytes, protocols: seq<Bytes>)

  // ---------------------------------------------------------------- parsing

  function ParseNames(s: Bytes, found: Option<Bytes>): Result<Bytes>
    decreases |s|
  {
    if |s| == 0 then Ok(if found.Some? then found.value else [])
    else if |s| < 3 then Err(Malformed)
    else
      var n := U16(s[1..3]);
      if n == 0 || n > |s| - 3 then Err(Malformed)
      else if s[0] != HOST_NAME then ParseNames(s[3 + n..], found)
      else if found.Some? || !ValidName(s[3..3 + n]) then Err(Malformed)
      else ParseNames(s[3 + n..], Some(s[3..3 + n]))
  }

  function ParseServerName(s: Bytes): Result<Bytes>
  {
    if |s| < 2 || U16(s[..2]) == 0 || U16(s[..2]) != |s| - 2 then Err(Malformed) else ParseNames(s[2..], None)
  }

  function ParseProtocols(s: Bytes, found: seq<Bytes>): Result<seq<Bytes>>
    decreases |s|
  {
    if |s| == 0 then Ok(found)
    else if |found| >= MAX_PROTOCOLS then Err(TooLarge)
    else if s[0] == 0 || s[0] > |s| - 1 then Err(Malformed)
    else ParseProtocols(s[1 + s[0]..], found + [s[1..1 + s[0]]])
  }

  function ParseAlpn(s: Bytes): Result<seq<Bytes>>
  {
    if |s| < 2 || U16(s[..2]) == 0 || U16(s[..2]) != |s| - 2 then Err(Malformed) else ParseProtocols(s[2..], [])
  }

  /** What one extension adds to what is known. */
  function Absorb(kind: nat, data: Bytes, info: Info): Result<Info>
  {
    if kind == SERVER_NAME then
      match ParseServerName(data)
      case Ok(name) => Ok(info.(serverName := name))
      case Err(e) => Err(e)
    else if kind == ALPN then
      match ParseAlpn(data)
      case Ok(protocols) => Ok(info.(protocols := protocols))
      case Err(e) => Err(e)
    else Ok(info)
  }

  function ParseExtensions(s: Bytes, seen: set<nat>, count: nat, info: Info): Result<Info>
    decreases |s|
  {
    if |s| == 0 then Ok(info)
    else if |s| < 4 then Err(Malformed)
    else if count + 1 > MAX_EXTENSIONS then Err(TooLarge)
    else
      var kind, n := U16(s[..2]), U16(s[2..4]);
      if n > |s| - 4 || kind in seen then Err(Malformed)
      else
        match Absorb(kind, s[4..4 + n], info)
        case Err(e) => Err(e)
        case Ok(next) => ParseExtensions(s[4 + n..], seen + {kind}, count + 1, next)
  }

  const NOTHING := Info([], [])

  /** After the compression methods: nothing, or exactly the extensions. */
  function ParseTail(s: Bytes): Result<Info>
  {
    if |s| == 0 then Ok(NOTHING)
    else if |s| < 2 || U16(s[..2]) != |s| - 2 then Err(Malformed)
    else ParseExtensions(s[2..], {}, 0, NOTHING)
  }

  function ParseCompression(s: Bytes): Result<Info>
  {
    if |s| < 1 || s[0] == 0 || s[0] > |s| - 1 then Err(Malformed) else ParseTail(s[1 + s[0]..])
  }

  function ParseSuites(s: Bytes): Result<Info>
  {
    if |s| < 2 then Err(Malformed)
    else
      var n := U16(s[..2]);
      if n == 0 || n % 2 != 0 || n > |s| - 2 then Err(Malformed) else ParseCompression(s[2 + n..])
  }

  function ParseSession(s: Bytes): Result<Info>
  {
    if |s| < 1 || s[0] > 32 || s[0] > |s| - 1 then Err(Malformed) else ParseSuites(s[1 + s[0]..])
  }

  function ParseBody(s: Bytes): Result<Info>
  {
    if |s| < 2 || s[0] != 3 || |s| < 34 then Err(Malformed) else ParseSession(s[34..])
  }

  // ----------------------------- encoding, in the numbers of the specifications

  datatype Name = Name(kind: byte, name: Bytes)

  datatype Extension =
    | Names(names: seq<Name>)
    | Protocols(protocols: seq<Bytes>)
    | Other(kind: nat, data: Bytes)

  /** `extensions` is absent in a legacy hello. */
  datatype Hello = Hello(
    minor: byte, random: Bytes, session: Bytes, suites: Bytes, compression: Bytes, extensions: Option<seq<Extension>>)

  function Kind(x: Extension): nat
  {
    match x
    case Names(_) => 0
    case Protocols(_) => 16
    case Other(kind, _) => kind
  }

  predicate NoHostName(names: seq<Name>)
  {
    forall i :: 0 <= i < |names| ==> names[i].kind != 0
  }

  /** Names are non-empty; at most one is a host name, and that one is a DNS name. */
  predicate NamesFit(names: seq<Name>)
  {
    names == [] ||
    (&& 1 <= |names[0].name| < 65536
     && (names[0].kind == 0 ==> ValidName(names[0].name) && NoHostName(names[1..]))
     && NamesFit(names[1..]))
  }

  function EncodeNames(names: seq<Name>): Bytes
    requires NamesFit(names)
  {
    if names == [] then []
    else [names[0].kind] + Put16(|names[0].name|) + names[0].name + EncodeNames(names[1..])
  }

  function EncodeProtocols(protocols: seq<Bytes>): Bytes
    requires forall i :: 0 <= i < |protocols| ==> |protocols[i]| < 256
  {
    if protocols == [] then [] else [|protocols[0]|] + protocols[0] + EncodeProtocols(protocols[1..])
  }

  predicate ProtocolsFit(protocols: seq<Bytes>)
  {
    |protocols| <= 256 && forall i :: 0 <= i < |protocols| ==> 1 <= |protocols[i]| < 256
  }

  predicate ExtensionFits(x: Extension)
  {
    match x
    case Names(names) => names != [] && NamesFit(names) && |EncodeNames(names)| < 65534
    case Protocols(protocols) => protocols != [] && ProtocolsFit(protocols) && |EncodeProtocols(protocols)| < 65534
    case Other(kind, data) => kind < 65536 && kind != 0 && kind != 16 && |data| < 65536
  }

  function EncodeData(x: Extension): (s: Bytes)
    requires ExtensionFits(x)
    ensures |s| < 65536 && Kind(x) < 65536
  {
    match x
    case Names(names) => Put16(|EncodeNames(names)|) + EncodeNames(names)
    case Protocols(protocols) => Put16(|EncodeProtocols(protocols)|) + EncodeProtocols(protocols)
    case Other(_, data) => data
  }

  predicate ExtensionsFit(xs: seq<Extension>)
  {
    && |xs| <= 256
    && (forall i :: 0 <= i < |xs| ==> ExtensionFits(xs[i]))
    && (forall i, j :: 0 <= i < j < |xs| ==> Kind(xs[i]) != Kind(xs[j]))
  }

  function EncodeExtensions(xs: seq<Extension>): Bytes
    requires forall i :: 0 <= i < |xs| ==> ExtensionFits(xs[i])
  {
    if xs == [] then []
    else
      var data := EncodeData(xs[0]);
      Put16(Kind(xs[0])) + Put16(|data|) + data + EncodeExtensions(xs[1..])
  }

  function EncodeTail(extensions: Option<seq<Extension>>): Bytes
    requires extensions.Some? ==> ExtensionsFit(extensions.value) && |EncodeExtensions(extensions.value)| < 65536
  {
    if extensions.None? then [] else Put16(|EncodeExtensions(extensions.value)|) + EncodeExtensions(extensions.value)
  }

  predicate TailFits(h: Hello)
  {
    h.extensions.Some? ==> ExtensionsFit(h.extensions.value) && |EncodeExtensions(h.extensions.value)| < 65536
  }

  predicate CompressionFits(h: Hello)
  {
    0 < |h.compression| < 256 && TailFits(h)
  }

  predicate SuitesFit(h: Hello)
  {
    0 < |h.suites| < 65536 && |h.suites| % 2 == 0 && CompressionFits(h)
  }

  predicate SessionFits(h: Hello)
  {
    |h.session| <= 32 && SuitesFit(h)
  }

  predicate HelloFits(h: Hello)
  {
    |h.random| == 32 && SessionFits(h)
  }

  function EncodeCompression(h: Hello): Bytes
    requires CompressionFits(h)
  {
    [|h.compression|] + h.compression + EncodeTail(h.extensions)
  }

  function EncodeSuites(h: Hello): Bytes
    requires SuitesFit(h)
  {
    Put16(|h.suites|) + h.suites + EncodeCompression(h)
  }

  function EncodeSession(h: Hello): Bytes
    requires SessionFits(h)
  {
    [|h.session|] + h.session + EncodeSuites(h)
  }

  function EncodeBody(h: Hello): Bytes
    requires HelloFits(h)
  {
    [3, h.minor] + h.random + EncodeSession(h)
  }

  // ---------------------------------------------------- what a hello carries

  function HostName(names: seq<Name>): Bytes
  {
    if names == [] then [] else if names[0].kind == 0 then names[0].name else HostName(names[1..])
  }

  function Carried(xs: seq<Extension>, info: Info): Info
  {
    if xs == [] then info
    else Carried(xs[1..], Gain(xs[0], info))
  }

  function InfoOf(h: Hello): Info
  {
    if h.extensions.None? then NOTHING else Carried(h.extensions.value, NOTHING)
  }

  // -------------------------------------------------------------- round trip

  lemma {:induction false} NamesRoundTrip(names: seq<Name>, found: Option<Bytes>)
    requires NamesFit(names)
    requires found.Some? ==> NoHostName(names)
    ensures ParseNames(EncodeNames(names), found) == Ok(if found.Some? then found.value else HostName(names))
  {
    hide ValidName;
    if names != [] {
      var first, rest := names[0], EncodeNames(names[1..]);
      var s := EncodeNames(names);
      assert s[1..3] == Put16(|first.name|);
      assert s[3..3 + |first.name|] == first.name;
      assert s[3 + |first.name|..] == rest;
      if first.kind != HOST_NAME {
        NamesRoundTrip(names[1..], found);
      } else {
        NamesRoundTrip(names[1..], Some(first.name));
      }
    }
  }

  lemma {:induction false} ProtocolsRoundTrip(protocols: seq<Bytes>, found: seq<Bytes>)
    requires |found| + |protocols| <= MAX_PROTOCOLS && ProtocolsFit(protocols)
    ensures ParseProtocols(EncodeProtocols(protocols), found) == Ok(found + protocols)
  {
    if protocols == [] {
      assert found + protocols == found;
    } else {
      var first, s := protocols[0], EncodeProtocols(protocols);
      assert s[1..1 + |first|] == first;
      assert s[1 + |first|..] == EncodeProtocols(protocols[1..]);
      ProtocolsRoundTrip(protocols[1..], found + [first]);
      assert found + [first] + protocols[1..] == found + protocols;
    }
  }

  lemma ServerNameRoundTrip(names: seq<Name>)
    requires ExtensionFits(Names(names))
    ensures ParseServerName(EncodeData(Names(names))) == Ok(HostName(names))
  {
    var s, list := EncodeData(Names(names)), EncodeNames(names);
    NamesRoundTrip(names, None);
    hide ParseNames, HostName, ValidName;
    assert |list| > 0;
    assert s[..2] == Put16(|list|) && s[2..] == list;
  }

  lemma AlpnRoundTrip(protocols: seq<Bytes>)
    requires ExtensionFits(Protocols(protocols))
    ensures ParseAlpn(EncodeData(Protocols(protocols))) == Ok(protocols)
  {
    var s, list := EncodeData(Protocols(protocols)), EncodeProtocols(protocols);
    ProtocolsRoundTrip(protocols, []);
    hide ParseProtocols;
    assert [] + protocols == protocols;
    assert |list| > 0;
    assert s[..2] == Put16(|list|) && s[2..] == list;
  }

  function Gain(x: Extension, info: Info): Info
  {
    match x
    case Names(names) => info.(serverName := HostName(names))
    case Protocols(protocols) => info.(protocols := protocols)
    case Other(_, _) => info
  }

  lemma DataRoundTrip(x: Extension, info: Info)
    requires ExtensionFits(x)
    ensures Absorb(Kind(x), EncodeData(x), info) == Ok(Gain(x, info))
  {
    match x
    case Names(names) =>
      ServerNameRoundTrip(names);
    case Protocols(protocols) =>
      AlpnRoundTrip(protocols);
    case Other(_, _) =>
  }

  lemma ExtensionLayout(xs: seq<Extension>)
    requires xs != [] && forall i :: 0 <= i < |xs| ==> ExtensionFits(xs[i])
    ensures var s, data := EncodeExtensions(xs), EncodeData(xs[0]);
      && |s| >= 4 + |data| && U16(s[..2]) == Kind(xs[0]) && U16(s[2..4]) == |data|
      && s[4..4 + |data|] == data && s[4 + |data|..] == EncodeExtensions(xs[1..])
  {
    hide ExtensionFits, EncodeData;
    var s, data := EncodeExtensions(xs), EncodeData(xs[0]);
    assert s[..2] == Put16(Kind(xs[0]));
    assert s[2..4] == Put16(|data|);
  }

  lemma {:induction false} ExtensionsRoundTrip(xs: seq<Extension>, seen: set<nat>, count: nat, info: Info)
    requires ExtensionsFit(xs) && count + |xs| <= MAX_EXTENSIONS
    requires forall i :: 0 <= i < |xs| ==> Kind(xs[i]) !in seen
    ensures ParseExtensions(EncodeExtensions(xs), seen, count, info) == Ok(Carried(xs, info))
  {
    hide ExtensionFits, EncodeData, Absorb;
    if xs != [] {
      ExtensionLayout(xs);
      DataRoundTrip(xs[0], info);
      var rest := xs[1..];
      assert forall i :: 0 <= i < |rest| ==> Kind(rest[i]) != Kind(xs[0]);
      ExtensionsRoundTrip(rest, seen + {Kind(xs[0])}, count + 1, Gain(xs[0], info));
    }
  }

  lemma TailRoundTrip(extensions: Option<seq<Extension>>)
    requires extensions.Some? ==> ExtensionsFit(extensions.value) && |EncodeExtensions(extensions.value)| < 65536
    ensures ParseTail(EncodeTail(extensions)) ==
      Ok(if extensions.None? then NOTHING else Carried(extensions.value, NOTHING))
  {
    if extensions.Some? {
      hide ParseExtensions, Carried;
      var s, all := EncodeTail(extensions), EncodeExtensions(extensions.value);
      assert s[..2] == Put16(|all|) && s[2..] == all;
      ExtensionsRoundTrip(extensions.value, {}, 0, NOTHING);
    }
  }

  lemma CompressionRoundTrip(h: Hello)
    requires CompressionFits(h)
    ensures ParseCompression(EncodeCompression(h)) == Ok(InfoOf(h))
  {
    hide ParseTail, EncodeTail, Carried, ExtensionsFit, EncodeExtensions;
    TailRoundTrip(h.extensions);
    assert EncodeCompression(h)[1 + |h.compression|..] == EncodeTail(h.extensions);
  }

  lemma SuitesRoundTrip(h: Hello)
    requires SuitesFit(h)
    ensures ParseSuites(EncodeSuites(h)) == Ok(InfoOf(h))
  {
    hide ParseCompression, EncodeCompression, CompressionFits, InfoOf;
    CompressionRoundTrip(h);
    var s := EncodeSuites(h);
    assert s[..2] == Put16(|h.suites|) && s[2 + |h.suites|..] == EncodeCompression(h);
  }

  lemma SessionRoundTrip(h: Hello)
    requires SessionFits(h)
    ensures ParseSession(EncodeSession(h)) == Ok(InfoOf(h))
  {
    hide ParseSuites, EncodeSuites, SuitesFit, InfoOf;
    SuitesRoundTrip(h);
    assert EncodeSession(h)[1 + |h.session|..] == EncodeSuites(h);
  }

  /** Parsing what a well-formed hello encodes to yields the server name and protocols it carries. */
  lemma BodyRoundTrip(h: Hello)
    requires HelloFits(h)
    ensures ParseBody(EncodeBody(h)) == Ok(InfoOf(h))
  {
    hide ParseSession, EncodeSession, SessionFits, InfoOf;
    SessionRoundTrip(h);
    assert EncodeBody(h)[34..] == EncodeSession(h);
  }

  // -------------------------------------------- nothing else is ever accepted

  lemma {:induction false} AcceptedNames(s: Bytes, found: Option<Bytes>) returns (names: seq<Name>)
    requires ParseNames(s, found).Ok?
    ensures NamesFit(names) && EncodeNames(names) == s
    ensures found.Some? ==> NoHostName(names)
    decreases |s|
  {
    hide ValidName, EncodeNames, NamesFit, NoHostName, Put16;
    if |s| == 0 {
      EmptyNames();
      return [];
    }
    var n := U16(s[1..3]);
    var first := Name(s[0], s[3..3 + n]);
    var host := first.kind == HOST_NAME;
    var rest := AcceptedNames(s[3 + n..], if host then Some(first.name) else found);
    names := [first] + rest;
    ConsNames(first, rest);
    U16Inverse(s[1..3]);
    Pieces(s, 1, 3, 3 + n);
  }

  lemma EmptyNames()
    ensures NamesFit([]) && EncodeNames([]) == [] && NoHostName([])
  {
  }

  lemma ConsNames(first: Name, rest: seq<Name>)
    requires NamesFit(rest) && 1 <= |first.name| < 65536
    requires first.kind == HOST_NAME ==> ValidName(first.name) && NoHostName(rest)
    ensures NamesFit([first] + rest)
    ensures first.kind != HOST_NAME && NoHostName(rest) ==> NoHostName([first] + rest)
    ensures EncodeNames([first] + rest) == [first.kind] + Put16(|first.name|) + first.name + EncodeNames(rest)
  {
    hide ValidName;
    assert ([first] + rest)[1..] == rest;
  }

  lemma Pieces(s: Bytes, a: nat, b: nat, c: nat)
    requires a <= b <= c <= |s|
    ensures s == s[..a] + s[a..b] + s[b..c] + s[c..]
  {
  }

  lemma {:induction false} AcceptedProtocols(s: Bytes, found: seq<Bytes>) returns (protocols: seq<Bytes>)
    requires ParseProtocols(s, found).Ok? && |found| <= MAX_PROTOCOLS
    ensures ProtocolsFit(protocols) && |found| + |protocols| <= MAX_PROTOCOLS && EncodeProtocols(protocols) == s
    decreases |s|
  {
    if |s| == 0 {
      return [];
    }
    var first := s[1..1 + s[0]];
    var rest := AcceptedProtocols(s[1 + s[0]..], found + [first]);
    protocols := [first] + rest;
    assert protocols[1..] == rest;
    assert s == [s[0]] + first + s[1 + s[0]..];
  }

  lemma AcceptedData(kind: nat, data: Bytes, info: Info) returns (x: Extension)
    requires kind < 65536 && |data| < 65536 && Absorb(kind, data, info).Ok?
    ensures ExtensionFits(x) && Kind(x) == kind && EncodeData(x) == data
  {
    hide ParseNames, ParseProtocols, ValidName;
    if kind == SERVER_NAME {
      var names := AcceptedNames(data[2..], None);
      U16Inverse(data[..2]);
      assert data == data[..2] + data[2..];
      x := Names(names);
    } else if kind == ALPN {
      var protocols := AcceptedProtocols(data[2..], []);
      U16Inverse(data[..2]);
      assert data == data[..2] + data[2..];
      x := Protocols(protocols);
    } else {
      x := Other(kind, data);
    }
  }

  lemma {:induction false} AcceptedExtensions(s: Bytes, seen: set<nat>, count: nat, info: Info) returns (xs: seq<Extension>)
    requires ParseExtensions(s, seen, count, info).Ok? && count <= MAX_EXTENSIONS
    ensures ExtensionsFit(xs) && count + |xs| <= MAX_EXTENSIONS && EncodeExtensions(xs) == s
    ensures forall i :: 0 <= i < |xs| ==> Kind(xs[i]) !in seen
    decreases |s|
  {
    hide ExtensionFits, EncodeData, Absorb;
    if |s| == 0 {
      return [];
    }
    var kind, n := U16(s[..2]), U16(s[2..4]);
    U16Inverse(s[..2]);
    U16Inverse(s[2..4]);
    var x := AcceptedData(kind, s[4..4 + n], info);
    var rest := AcceptedExtensions(s[4 + n..], seen + {kind}, count + 1, Absorb(kind, s[4..4 + n], info).value);
    xs := [x] + rest;
    ConsExtensions(x, rest, seen);
    Pieces(s, 2, 4, 4 + n);
  }

  lemma ConsExtensions(x: Extension, rest: seq<Extension>, seen: set<nat>)
    requires ExtensionFits(x) && ExtensionsFit(rest) && |rest| < MAX_EXTENSIONS
    requires Kind(x) !in seen && forall i :: 0 <= i < |rest| ==> Kind(rest[i]) !in seen + {Kind(x)}
    ensures ExtensionsFit([x] + rest)
    ensures forall i :: 0 <= i < |[x] + rest| ==> Kind(([x] + rest)[i]) !in seen
    ensures EncodeExtensions([x] + rest) == Put16(Kind(x)) + Put16(|EncodeData(x)|) + EncodeData(x) + EncodeExtensions(rest)
  {
    hide ExtensionFits, EncodeData;
    assert ([x] + rest)[1..] == rest;
  }

  lemma AcceptedTail(s: Bytes) returns (extensions: Option<seq<Extension>>)
    requires ParseTail(s).Ok?
    ensures extensions.Some? ==> ExtensionsFit(extensions.value) && |EncodeExtensions(extensions.value)| < 65536
    ensures EncodeTail(extensions) == s
  {
    hide ExtensionsFit, EncodeExtensions, ParseExtensions;
    if |s| == 0 {
      return None;
    }
    U16Inverse(s[..2]);
    var xs := AcceptedExtensions(s[2..], {}, 0, NOTHING);
    extensions := Some(xs);
    assert s == s[..2] + s[2..];
  }

  lemma AcceptedCompression(s: Bytes) returns (h: Hello)
    requires ParseCompression(s).Ok?
    ensures CompressionFits(h) && EncodeCompression(h) == s
  {
    hide ExtensionsFit, EncodeExtensions, ParseTail, EncodeTail;
    var extensions := AcceptedTail(s[1 + s[0]..]);
    h := Hello(0, [], [], [], s[1..1 + s[0]], extensions);
    assert s == [s[0]] + s[1..1 + s[0]] + s[1 + s[0]..];
  }

  lemma AcceptedSuites(s: Bytes) returns (h: Hello)
    requires ParseSuites(s).Ok?
    ensures SuitesFit(h) && EncodeSuites(h) == s
  {
    hide ParseCompression, TailFits, EncodeTail;
    var n := U16(s[..2]);
    U16Inverse(s[..2]);
    var rest := AcceptedCompression(s[2 + n..]);
    h := rest.(suites := s[2..2 + n]);
    SameTail(rest, h);
    assert s == s[..2] + s[2..2 + n] + s[2 + n..];
  }

  lemma SameTail(a: Hello, b: Hello)
    requires a.extensions == b.extensions && TailFits(a)
    ensures TailFits(b)
  {
  }

  lemma AcceptedBody(s: Bytes) returns (h: Hello)
    requires ParseBody(s).Ok?
    ensures HelloFits(h) && EncodeBody(h) == s
  {
    hide ParseSuites, TailFits, EncodeTail;
    var n := s[34..];
    var rest := AcceptedSuites(n[1 + n[0]..]);
    h := rest.(minor := s[1], random := s[2..34], session := n[1..1 + n[0]]);
    SameTail(rest, h);
    assert EncodeSuites(h) == EncodeSuites(rest);
    assert n == [n[0]] + n[1..1 + n[0]] + n[1 + n[0]..];
    assert s == [3, s[1]] + s[2..34] + n;
  }

  /**
   * The parser accepts exactly the encodings of well-formed hellos, and from
   * each it reads what that hello carries.
   */
  lemma AcceptsExactlyHellos(s: Bytes)
    ensures ParseBody(s).Ok? <==> exists h :: HelloFits(h) && EncodeBody(h) == s
    ensures forall h :: HelloFits(h) && EncodeBody(h) == s ==> ParseBody(s) == Ok(InfoOf(h))
  {
    hide ParseBody, EncodeBody, HelloFits, InfoOf;
    if ParseBody(s).Ok? {
      var h := AcceptedBody(s);
    }
    forall h | HelloFits(h) && EncodeBody(h) == s ensures ParseBody(s) == Ok(InfoOf(h)) {
      BodyRoundTrip(h);
    }
  }

  // ------------------------------------------------------- on the wire, in bytes

  /** Two bytes, the more significant one first. */
  function Two(n: nat): Bytes
    requires n < 65536
  {
    [n / 256, n % 256]
  }

  lemma TwoIsNumber(n: nat)
    requires n < 65536
    ensures Two(n) == Put16(n) && |Two(n)| == 2 && U16(Two(n)) == n
  {
  }

  /** One extension by itself: its kind, its length and its data. */
  lemma OneExtension(kind: nat, data: Bytes)
    requires kind < 65536 && |data| < 65536
    ensures ParseExtensions(Two(kind) + Two(|data|) + data, {}, 0, NOTHING) == Absorb(kind, data, NOTHING)
  {
    hide Absorb, Two;
    TwoIsNumber(kind);
    TwoIsNumber(|data|);
    var wire := Two(kind) + Two(|data|) + data;
    assert wire[..2] == Two(kind) && wire[2..4] == Two(|data|);
    assert wire[4..4 + |data|] == data && wire[4 + |data|..] == [];
    NoMoreExtensions();
  }

  lemma NoMoreExtensions()
    ensures forall seen, count, info :: ParseExtensions([], seen, count, info) == Ok(info)
  {
  }

  /** An extension block 0 16 ... holding a protocol list reads as that list. */
  lemma AlpnOnTheWire(protocols: seq<Bytes>)
    requires protocols != [] && ProtocolsFit(protocols) && |EncodeProtocols(protocols)| < 65534
    ensures
      var list := EncodeProtocols(protocols);
      var data := Two(|list|) + list;
      ParseExtensions([0, 16] + Two(|data|) + data, {}, 0, NOTHING) == Ok(Info([], protocols))
  {
    var list := EncodeProtocols(protocols);
    AlpnRoundTrip(protocols);
    hide ParseAlpn, EncodeProtocols, ProtocolsFit, ParseExtensions;
    TwoIsNumber(|list|);
    assert Two(16) == [0, 16];
    hide Two;
    OneExtension(16, Two(|list|) + list);
  }

  /** An extension block 0 0 ... whose one entry has type byte 0 reads as that host name. */
  lemma ServerNameOnTheWire(name: Bytes)
    requires ValidName(name)
    ensures
      |name| <= 253 &&
      var list := [0] + Two(|name|) + name;
      var data := Two(|list|) + list;
      ParseExtensions([0, 0] + Two(|data|) + data, {}, 0, NOTHING) == Ok(Info(name, []))
  {
    NameIsShort(name);
    hide ValidName, ParseExtensions;
    TwoIsNumber(|name|);
    assert Two(0) == [0, 0];
    hide Two;
    var list := [0] + Two(|name|) + name;
    var names := [Name(0, name)];
    assert names[1..] == [];
    EmptyNames();
    assert NamesFit(names) && EncodeNames(names) == list + [];
    assert list + [] == list;
    TwoIsNumber(|list|);
    ServerNameRoundTrip(names);
    hide ParseServerName, EncodeNames, NamesFit;
    OneHostName(name);
    OneExtension(0, Two(|list|) + list);
  }

  lemma OneHostName(name: Bytes)
    ensures HostName([Name(0, name)]) == name
  {
  }

  lemma NameIsShort(name: Bytes)
    requires ValidName(name)
    ensures 1 <= |name| <= 253
  {
  }

  /** Any other extension adds nothing. */
  lemma OtherKindsAddNothing(kind: nat, data: Bytes)
    requires kind < 65536 && kind != 0 && kind != 16 && |data| < 65536
    ensures ParseExtensions(Two(kind) + Two(|data|) + data, {}, 0, NOTHING) == Ok(NOTHING)
  {
    hide ParseExtensions, Two;
    OneExtension(kind, data);
  }

  /** The bytes 00 10 00 05 00 03 02 'h' '2' name the protocol "h2". */
  lemma Http2OnTheWire()
    ensures ParseExtensions([0, 16, 0, 5, 0, 3, 2, 104, 50], {}, 0, NOTHING) == Ok(Info([], [[104, 50]]))
  {
    var protocols: seq<Bytes> := [[104, 50]];
    assert protocols[1..] == [] && EncodeProtocols(protocols) == [2] + [104, 50] + [];
    assert EncodeProtocols(protocols) == [2, 104, 50];
    AlpnOnTheWire(protocols);
    assert Two(3) == [0, 3] && Two(5) == [0, 5];
    assert [0, 16] + [0, 5] + ([0, 3] + [2, 104, 50]) == [0, 16, 0, 5, 0, 3, 2, 104, 50];
    hide ParseExtensions, EncodeProtocols;
  }
}
