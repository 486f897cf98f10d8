/**
 * PROXY protocol headers, versions 1 and 2 (sections 2.1 and 2.2 of the HAProxy
 * PROXY protocol specification): detection that keeps ordinary data, parsing,
 * and the canonical encodings.
 */
module ProxyProtocol {
  import opened Bytes
  import opened Options
  import opened Splitting

  const V1_MAX := 108
  const V2_MAX_PAYLOAD := 4096
  const SPACE: byte := 32
  const CR: byte := 13
  const LF: byte := 10

  const SIG1: Bytes := [80, 82, 79, 88, 89, 32]
  const SIG2: Bytes := [13, 10, 13, 10, 0, 13, 10, 81, 85, 73, 84, 10]
  const UNKNOWN: Bytes := [85, 78, 75, 78, 79, 87, 78]
  const TCP4: Bytes := [84, 67, 80, 52]
  const TCP6: Bytes := [84, 67, 80, 54]

  datatype Addr = NoAddr | V4(bytes: Bytes) | V6(bytes: Bytes, zone: Bytes)

  datatype AddrPort = AddrPort(addr: Addr, port: nat)

  const NOWHERE := AddrPort(NoAddr, 0)

  datatype Version = One | Two

  datatype Command = Local | Proxy

  datatype Header = Header(version: Version, command: Command, source: AddrPort, destination: AddrPort)

  datatype Failure = Ended | Truncated | Malformed | TooLarge

  datatype Answer = Found(header: Header) | Replay(bytes: Bytes) | Failed(failure: Failure)

  /** An IPv4 address inside IPv6 is not native. */
  predicate Mapped(a: Addr)
  {
    a.V6? && |a.bytes| == 16 && a.bytes[..10] == [0, 0, 0, 0, 0, 0, 0, 0, 0, 0] && a.bytes[10..12] == [255, 255]
  }

  predicate WellFormed(p: AddrPort)
  {
    p.port < 65536 && (p.addr.V4? ==> |p.addr.bytes| == 4) && (p.addr.V6? ==> |p.addr.bytes| == 16)
  }

  /** How addresses are written and read as text: a pair of library functions. */
  datatype Text = Text(render: Addr -> Bytes, parse: Bytes -> Option<Addr>)

  predicate Plain(s: Bytes)
  {
    SPACE !in s && CR !in s && LF !in s
  }

  /** Reading undoes writing, for addresses without a zone, and the text holds no separator. */
  ghost predicate Inverse(text: Text)
  {
    forall a: Addr ::
      (a.V4? && |a.bytes| == 4) || (a.V6? && |a.bytes| == 16 && a.zone == []) ==>
        text.parse(text.render(a)) == Some(a) && Plain(text.render(a))
  }

  // ------------------------------------------------------------------- ports

  function Digit(b: byte): Option<nat>
  {
    if 48 <= b <= 57 then Some(b - 48) else None
  }

  function Number(s: Bytes): Option<nat>
  {
    if s == [] then None
    else
      var d := Digit(s[|s| - 1]);
      if d.None? then None
      else if |s| == 1 then d
      else
        var front := Number(s[..|s| - 1]);
        if front.None? then None else Some(10 * front.value + d.value)
  }

  function ParsePort(s: Bytes): Option<nat>
  {
    if |s| > 1 && s[0] == 48 then None
    else
      var n := Number(s);
      if n.Some? && n.value < 65536 then n else None
  }

  function PrintNumber(n: nat): (s: Bytes)
    ensures s != []
  {
    if n < 10 then [48 + n] else PrintNumber(n / 10) + [48 + n % 10]
  }

  lemma {:induction false} NumberRoundTrip(n: nat)
    ensures Number(PrintNumber(n)) == Some(n)
    ensures Plain(PrintNumber(n))
    ensures |PrintNumber(n)| > 1 ==> PrintNumber(n)[0] != 48
    ensures n > 0 ==> PrintNumber(n)[0] != 48
  {
    if n >= 10 {
      NumberRoundTrip(n / 10);
      assert PrintNumber(n)[..|PrintNumber(n)| - 1] == PrintNumber(n / 10);
    }
  }

  lemma PortRoundTrip(n: nat)
    requires n < 65536
    ensures ParsePort(PrintNumber(n)) == Some(n) && Plain(PrintNumber(n))
  {
    NumberRoundTrip(n);
  }

  lemma {:induction false} NumberIsPrinted(s: Bytes)
    requires Number(s).Some? && (|s| > 1 ==> s[0] != 48)
    ensures PrintNumber(Number(s).value) == s
    ensures s[0] != 48 ==> Number(s).value > 0
  {
    if |s| > 1 {
      var front := s[..|s| - 1];
      NumberIsPrinted(front);
      var n := Number(s).value;
      assert n / 10 == Number(front).value && n % 10 == Digit(s[|s| - 1]).value;
      assert s == front + [s[|s| - 1]];
    }
  }

  /** Every port has exactly one accepted spelling. */
  lemma PortSpellingIsUnique(s: Bytes)
    ensures ParsePort(s).Some? ==> ParsePort(s).value < 65536 && s == PrintNumber(ParsePort(s).value)
  {
    if ParsePort(s).Some? {
      NumberIsPrinted(s);
    }
  }

  // --------------------------------------------------------------- version 1

  function ParseAddress(text: Text, s: Bytes, family: Bytes): Option<Addr>
  {
    var a := text.parse(s);
    if a.None? || a.value.NoAddr? then None
    else if a.value.V6? && a.value.zone != [] then None
    else if family == TCP4 && !a.value.V4? then None
    else if family == TCP6 && (!a.value.V6? || Mapped(a.value)) then None
    else a
  }

  function ParseTuple(text: Text, fields: seq<Bytes>): Answer
  {
    if |fields| != 5 || (fields[0] != TCP4 && fields[0] != TCP6) then Failed(Malformed)
    else
      var source, destination := ParseAddress(text, fields[1], fields[0]), ParseAddress(text, fields[2], fields[0]);
      var from, to := ParsePort(fields[3]), ParsePort(fields[4]);
      if source.None? || destination.None? || from.None? || to.None? then Failed(Malformed)
      else Found(Header(One, Proxy, AddrPort(source.value, from.value), AddrPort(destination.value, to.value)))
  }

  /** `body`: the line without the signature and without the final CR LF. */
  function ParseBody(text: Text, body: Bytes): Answer
  {
    if body == UNKNOWN || UNKNOWN + [SPACE] <= body then Found(Header(One, Local, NOWHERE, NOWHERE))
    else ParseTuple(text, Split(body, SPACE))
  }

  predicate EndsLine(s: Bytes)
  {
    |s| >= 2 && s[|s| - 2] == CR && s[|s| - 1] == LF
  }

  /** After the signature: n bytes are read and do not end the line. */
  function ReadLine(text: Text, s: Bytes, n: nat): (Answer, Bytes)
    requires n <= |s|
    decreases |s| - n
  {
    if |SIG1| + n >= V1_MAX then (Failed(TooLarge), s[n..])
    else if n == |s| then (Failed(Truncated), [])
    else if EndsLine(s[..n + 1]) then (ParseBody(text, s[..n - 1]), s[n + 1..])
    else ReadLine(text, s, n + 1)
  }

  // --------------------------------------------------------------- version 2

  function ValidTlvs(s: Bytes): bool
    decreases |s|
  {
    if s == [] then true
    else if |s| < 3 || U16(s[1..3]) > |s| - 3 then false
    else ValidTlvs(s[3 + U16(s[1..3])..])
  }

  function AddressLength(family: byte): Option<nat>
  {
    if family == 0x11 then Some(12) else if family == 0x21 then Some(36) else None
  }

  function ParseAddresses(family: byte, s: Bytes): Header
    requires (family == 0x11 && |s| >= 12) || (family == 0x21 && |s| >= 36)
  {
    if family == 0x11 then
      Header(Two, Proxy, AddrPort(V4(s[0..4]), U16(s[8..10])), AddrPort(V4(s[4..8]), U16(s[10..12])))
    else
      Header(Two, Proxy, AddrPort(V6(s[0..16], []), U16(s[32..34])), AddrPort(V6(s[16..32], []), U16(s[34..36])))
  }

  function ParsePayload(command: nat, family: byte, payload: Bytes): Answer
  {
    if command == 0 then Found(Header(Two, Local, NOWHERE, NOWHERE))
    else
      var n := AddressLength(family);
      if n.None? || |payload| < n.value || !ValidTlvs(payload[n.value..]) then Failed(Malformed)
      else Found(ParseAddresses(family, payload))
  }

  function ReadV2(s: Bytes): (Answer, Bytes)
  {
    if |s| < 4 then (Failed(Truncated), [])
    else
      var version, command, n := s[0] / 16, s[0] % 16, U16(s[2..4]);
      if version != 2 || command > 1 then (Failed(Malformed), s[4..])
      else if n > V2_MAX_PAYLOAD then (Failed(TooLarge), s[4..])
      else if |s| - 4 < n then (Failed(Truncated), [])
      else (ParsePayload(command, s[1], s[4..4 + n]), s[4 + n..])
  }

  // --------------------------------------------------------------- detection

  /** n bytes of the stream are read and start a signature. `ended`: the stream ends rather than fails. */
  function Detect(text: Text, s: Bytes, n: nat, ended: bool): (Answer, Bytes)
    requires n <= |s|
    decreases |s| - n
  {
    if n == |s| then (Failed(if n == 0 && ended then Ended else Truncated), [])
    else
      var prefix := s[..n + 1];
      if prefix == SIG1 then ReadLine(text, s[n + 1..], 0)
      else if prefix == SIG2 then ReadV2(s[n + 1..])
      else if prefix <= SIG1 || prefix <= SIG2 then Detect(text, s, n + 1, ended)
      else (Replay(prefix), s[n + 1..])
  }

  function Read(text: Text, s: Bytes, ended: bool): (Answer, Bytes)
  {
    Detect(text, s, 0, ended)
  }

  // ----------------------------------------------------------------- writing

  /** The family both endpoints share, if a header can carry them. */
  function Family(source: AddrPort, destination: AddrPort): Option<Bytes>
  {
    var a, b := source.addr, destination.addr;
    if a.NoAddr? || b.NoAddr? then None
    else if (a.V6? && a.zone != []) || (b.V6? && b.zone != []) then None
    else if a.V4? && b.V4? then Some(TCP4)
    else if a.V6? && !Mapped(a) && b.V6? && !Mapped(b) then Some(TCP6)
    else None
  }

  function Fields(text: Text, family: Bytes, h: Header): seq<Bytes>
  {
    [family, text.render(h.source.addr), text.render(h.destination.addr),
     PrintNumber(h.source.port), PrintNumber(h.destination.port)]
  }

  function Line(body: Bytes): Bytes
  {
    SIG1 + body + [CR, LF]
  }

  function WriteV1(text: Text, h: Header): Option<Bytes>
  {
    if h.command == Local then Some(Line(UNKNOWN))
    else
      var family := Family(h.source, h.destination);
      if family.None? then None
      else
        var line := Line(Join(Fields(text, family.value, h), SPACE));
        if |line| > V1_MAX then None else Some(line)
  }

  function EncodeAddresses(h: Header): Bytes
    requires WellFormed(h.source) && WellFormed(h.destination) && !h.source.addr.NoAddr? && !h.destination.addr.NoAddr?
  {
    h.source.addr.bytes + h.destination.addr.bytes + Put16(h.source.port) + Put16(h.destination.port)
  }

  function WriteV2(h: Header): Option<Bytes>
    requires WellFormed(h.source) && WellFormed(h.destination)
  {
    if h.command == Local then Some(SIG2 + [0x20, 0, 0, 0])
    else
      var family := Family(h.source, h.destination);
      if family.None? then None
      else if family.value == TCP4 then Some(SIG2 + [0x21, 0x11] + Put16(12) + EncodeAddresses(h))
      else Some(SIG2 + [0x21, 0x21] + Put16(36) + EncodeAddresses(h))
  }

  function Write(text: Text, h: Header): Option<Bytes>
    requires WellFormed(h.source) && WellFormed(h.destination)
  {
    if h.version == One then WriteV1(text, h) else WriteV2(h)
  }

  /** The headers a reader can return: a local one names no endpoints. */
  predicate Canonical(h: Header)
  {
    WellFormed(h.source) && WellFormed(h.destination) && (h.command == Local ==> h.source == NOWHERE && h.destination == NOWHERE)
  }
}
