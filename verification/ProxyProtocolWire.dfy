/**
 * The grammar of PROXY headers in plain bytes, and the theorem that the reader
 * accepts exactly its sentences: "PROXY " lines of at most 108 bytes, and binary
 * headers with a payload of at most 4096 bytes.
 */
module ProxyProtocolWire {
  import opened Bytes
  import opened Options
  import opened Splitting
  import opened ProxyProtocol
  import opened ProxyProtocolLaws

  const LOCAL_ENDPOINT := AddrPort(NoAddr, 0)

  // ------------------------------------------------------------- the grammar

  /** An IPv6 address that names no zone and is not ::ffff:a.b.c.d. */
  predicate Native(a: Addr)
  {
    && a.V6? && a.zone == []
    && !(|a.bytes| == 16 && (forall i :: 0 <= i < 10 ==> a.bytes[i] == 0) && a.bytes[10] == 255 && a.bytes[11] == 255)
  }

  /** One spelled address of the family, without a space. */
  predicate Spells(text: Text, s: Bytes, a: Addr, four: bool)
  {
    32 !in s && text.parse(s) == Some(a) && if four then a.V4? else Native(a)
  }

  /** "TCP4 a b p q" or "TCP6 a b p q", the ports in decimal without leading zeroes. */
  ghost predicate TupleOf(text: Text, body: Bytes, h: Header)
  {
    && h.version == One && h.command == Proxy && h.source.port < 65536 && h.destination.port < 65536
    && exists four: bool, a: Bytes, b: Bytes ::
         && Spells(text, a, h.source.addr, four) && Spells(text, b, h.destination.addr, four)
         && body == FiveFields(if four then [84, 67, 80, 52] else [84, 67, 80, 54], a, b,
                               PrintNumber(h.source.port), PrintNumber(h.destination.port))
  }

  function FiveFields(family: Bytes, a: Bytes, b: Bytes, p: Bytes, q: Bytes): Bytes
  {
    family + [32] + a + [32] + b + [32] + p + [32] + q
  }

  /** "UNKNOWN", alone or followed by a space and anything. */
  predicate SaysUnknown(body: Bytes)
  {
    body == [85, 78, 75, 78, 79, 87, 78] || [85, 78, 75, 78, 79, 87, 78, 32] <= body
  }

  ghost predicate BodyOf(text: Text, body: Bytes, h: Header)
  {
    || (SaysUnknown(body) && h == Header(One, Local, LOCAL_ENDPOINT, LOCAL_ENDPOINT))
    || TupleOf(text, body, h)
  }

  /** The first CR LF of s follows its first k bytes. */
  ghost predicate BreaksAt(s: Bytes, k: nat)
  {
    k + 2 <= |s| && s[k] == 13 && s[k + 1] == 10 && forall j :: 0 <= j < k ==> !(s[j] == 13 && s[j + 1] == 10)
  }

  /** A line: "PROXY ", a body without CR LF, CR LF; 108 bytes at most. */
  ghost predicate LineOf(text: Text, wire: Bytes, h: Header)
  {
    && 8 <= |wire| <= 108 && wire[..6] == [80, 82, 79, 88, 89, 32]
    && BreaksAt(wire[6..], |wire| - 8) && BodyOf(text, wire[6..|wire| - 2], h)
  }

  function Wide(high: byte, low: byte): nat
  {
    256 * (high as int) + low as int
  }

  /** Two addresses of the family, two ports, and type-length-value items. */
  ghost predicate PayloadOf(family: byte, payload: Bytes, h: Header)
  {
    var n := if family == 0x11 then 4 else 16;
    && (family == 0x11 || family == 0x21) && |payload| >= 2 * n + 4
    && h.version == Two && h.command == Proxy
    && h.source.addr == (if family == 0x11 then V4(payload[..n]) else V6(payload[..n], []))
    && h.destination.addr == (if family == 0x11 then V4(payload[n..2 * n]) else V6(payload[n..2 * n], []))
    && h.source.port == Wide(payload[2 * n], payload[2 * n + 1])
    && h.destination.port == Wide(payload[2 * n + 2], payload[2 * n + 3])
    && exists tlvs :: TlvsFit(tlvs) && EncodeTlvs(tlvs) == payload[2 * n + 4..]
  }

  /** CR LF CR LF NUL CR LF "QUIT" LF, version and command, family, big-endian length, payload. */
  ghost predicate BinaryOf(wire: Bytes, h: Header)
  {
    && 16 <= |wire| <= 4112 && wire[..12] == [13, 10, 13, 10, 0, 13, 10, 81, 85, 73, 84, 10]
    && |wire| - 16 == Wide(wire[14], wire[15])
    && (|| (wire[12] == 0x20 && h == Header(Two, Local, LOCAL_ENDPOINT, LOCAL_ENDPOINT))
        || (wire[12] == 0x21 && PayloadOf(wire[13], wire[16..], h)))
  }

  // ----------------------------------------------------------------- lines

  lemma JoinOfFive(family: Bytes, a: Bytes, b: Bytes, p: Bytes, q: Bytes)
    ensures Join([family, a, b, p, q], 32) == FiveFields(family, a, b, p, q)
  {
    assert [family, a, b, p, q][..4] == [family, a, b, p];
    assert [family, a, b, p][..3] == [family, a, b];
    assert [family, a, b][..2] == [family, a];
    assert [family, a][..1] == [family];
    assert Join([family, a], 32) == family + [32] + a;
    assert Join([family, a, b], 32) == family + [32] + a + [32] + b;
  }

  lemma NativeIsUnmapped(a: Addr)
    ensures a.V6? && a.zone == [] ==> (Native(a) <==> !Mapped(a))
  {
    if a.V6? && |a.bytes| == 16 {
      if Mapped(a) {
        assert forall i :: 0 <= i < 10 ==> a.bytes[i] == a.bytes[..10][i];
        assert a.bytes[10] == a.bytes[10..12][0] && a.bytes[11] == a.bytes[10..12][1];
      }
    }
  }

  lemma AddressSpelled(text: Text, s: Bytes, four: bool, a: Addr)
    requires 32 !in s
    ensures ParseAddress(text, s, if four then [84, 67, 80, 52] else [84, 67, 80, 54]) == Some(a) <==> Spells(text, s, a, four)
  {
    hide Mapped, Native;
    NativeIsUnmapped(a);
    NativeShape(a);
  }

  lemma NativeShape(a: Addr)
    ensures Native(a) ==> a.V6? && a.zone == []
  {
  }

  lemma {:induction false} PartsHoldNoSeparator(s: Bytes, sep: byte)
    ensures forall i :: 0 <= i < |Split(s, sep)| ==> sep !in Split(s, sep)[i]
  {
    if s != [] {
      PartsHoldNoSeparator(s[..|s| - 1], sep);
    }
  }

  lemma ParsedTuple(text: Text, body: Bytes, h: Header)
    requires ParseTuple(text, Split(body, 32)) == Found(h)
    ensures TupleOf(text, body, h)
  {
    hide Split, ParsePort, PrintNumber, ParseAddress, Spells, Join, FiveFields;
    var f := Split(body, 32);
    PartsHoldNoSeparator(body, 32);
    JoinSplit(body, 32);
    var four := f[0] == [84, 67, 80, 52];
    assert f == [f[0], f[1], f[2], f[3], f[4]];
    JoinOfFive(f[0], f[1], f[2], f[3], f[4]);
    AddressSpelled(text, f[1], four, h.source.addr);
    AddressSpelled(text, f[2], four, h.destination.addr);
    PortSpellingIsUnique(f[3]);
    PortSpellingIsUnique(f[4]);
    assert Spells(text, f[1], h.source.addr, four) && Spells(text, f[2], h.destination.addr, four);
  }

  lemma SpelledTuple(text: Text, body: Bytes, h: Header)
    requires TupleOf(text, body, h)
    ensures ParseTuple(text, Split(body, 32)) == Found(h) && |body| > 0 && body[0] == 84
  {
    hide Split, ParseTuple, PrintNumber, Spells;
    var four, a, b :|
      && Spells(text, a, h.source.addr, four) && Spells(text, b, h.destination.addr, four)
      && body == FiveFields(if four then [84, 67, 80, 52] else [84, 67, 80, 54], a, b,
                            PrintNumber(h.source.port), PrintNumber(h.destination.port));
    FieldsParse(text, h, four, a, b);
  }

  lemma FieldsParse(text: Text, h: Header, four: bool, a: Bytes, b: Bytes)
    requires h.version == One && h.command == Proxy && h.source.port < 65536 && h.destination.port < 65536
    requires Spells(text, a, h.source.addr, four) && Spells(text, b, h.destination.addr, four)
    ensures
      var body := FiveFields(if four then [84, 67, 80, 52] else [84, 67, 80, 54], a, b,
                             PrintNumber(h.source.port), PrintNumber(h.destination.port));
      ParseTuple(text, Split(body, 32)) == Found(h)
  {
    hide FiveFields, Split, ParsePort, PrintNumber, ParseAddress, Join, Native;
    PortRoundTrip(h.source.port);
    PortRoundTrip(h.destination.port);
    var f := [if four then [84, 67, 80, 52] else [84, 67, 80, 54], a, b, PrintNumber(h.source.port), PrintNumber(h.destination.port)];
    JoinOfFive(f[0], f[1], f[2], f[3], f[4]);
    assert forall i :: 0 <= i < 5 ==> 32 !in f[i];
    SplitJoin(f, 32);
    AddressSpelled(text, a, four, h.source.addr);
    AddressSpelled(text, b, four, h.destination.addr);
    hide Spells;
  }

  lemma BodyExactly(text: Text, body: Bytes, h: Header)
    ensures ParseBody(text, body) == Found(h) <==> BodyOf(text, body, h)
  {
    hide Split, TupleOf, ParseTuple;
    if TupleOf(text, body, h) {
      SpelledTuple(text, body, h);
    } else if ParseTuple(text, Split(body, 32)) == Found(h) {
      ParsedTuple(text, body, h);
    }
  }

  /**
   * What the line loop answers: the first CR LF within the first 102 bytes after
   * the signature ends the line; without one the header is too long, or cut off.
   */
  lemma {:induction false} LineExactly(text: Text, s: Bytes, n: nat)
    requires n <= |s| && n <= 102 && forall j :: 0 <= j < n - 1 ==> !(s[j] == 13 && s[j + 1] == 10)
    ensures forall k: nat :: k <= 100 && BreaksAt(s, k) ==> ReadLine(text, s, n) == (ParseBody(text, s[..k]), s[k + 2..])
    ensures (forall k: nat :: k <= 100 ==> !BreaksAt(s, k)) ==>
      ReadLine(text, s, n) == if |s| >= 102 then (Failed(TooLarge), s[102..]) else (Failed(Truncated), [])
    decreases |s| - n
  {
    hide ParseBody;
    if n < 102 && n < |s| {
      assert s[..n + 1][n] == s[n] && (n > 0 ==> s[..n + 1][n - 1] == s[n - 1]);
      if EndsLine(s[..n + 1]) {
        assert BreaksAt(s, n - 1);
      } else {
        LineExactly(text, s, n + 1);
      }
    }
  }

  lemma BreakCarries(s: Bytes, rest: Bytes, k: nat)
    requires k + 2 <= |s|
    ensures BreaksAt(s, k) <==> BreaksAt(s + rest, k)
  {
    assert forall j :: 0 <= j < |s| ==> (s + rest)[j] == s[j];
  }

  lemma WrittenLineIsRead(text: Text, wire: Bytes, rest: Bytes, h: Header)
    requires LineOf(text, wire, h)
    ensures ReadLine(text, wire[6..] + rest, 0) == (Found(h), rest)
  {
    hide ReadLine, ParseBody, BodyOf, BreaksAt;
    var s, k := wire[6..] + rest, |wire| - 8;
    BreakCarries(wire[6..], rest, k);
    LineExactly(text, s, 0);
    assert s[..k] == wire[6..|wire| - 2] && s[k + 2..] == rest;
    BodyExactly(text, s[..k], h);
  }

  lemma ReadLineIsWritten(text: Text, s: Bytes, rest: Bytes, h: Header) returns (wire: Bytes)
    requires ReadLine(text, s, 0) == (Found(h), rest)
    ensures LineOf(text, wire, h) && [80, 82, 79, 88, 89, 32] + s == wire + rest
  {
    hide ReadLine, ParseBody, BodyOf, BreaksAt, LineOf;
    LineExactly(text, s, 0);
    var k: nat :| k <= 100 && BreaksAt(s, k);
    BreakFits(s, k);
    BodyExactly(text, s[..k], h);
    FramedLine(text, s, k, h);
    wire := [80, 82, 79, 88, 89, 32] + s[..k + 2];
    assert s[..k + 2] + s[k + 2..] == s;
  }

  lemma FramedLine(text: Text, s: Bytes, k: nat, h: Header)
    requires k <= 100 && BreaksAt(s, k) && BodyOf(text, s[..k], h)
    ensures LineOf(text, [80, 82, 79, 88, 89, 32] + s[..k + 2], h)
  {
    BreakFits(s, k);
    hide BodyOf, BreaksAt;
    var wire := [80, 82, 79, 88, 89, 32] + s[..k + 2];
    assert s[..k + 2] + s[k + 2..] == s;
    BreakCarries(s[..k + 2], s[k + 2..], k);
    assert wire[6..] == s[..k + 2] && wire[6..|wire| - 2] == s[..k];
  }

  lemma BreakFits(s: Bytes, k: nat)
    requires BreaksAt(s, k)
    ensures k + 2 <= |s|
  {
  }

  // -------------------------------------------------------- binary headers

  lemma PayloadExactly(family: byte, payload: Bytes, h: Header)
    ensures ParsePayload(1, family, payload) == Found(h) <==> PayloadOf(family, payload, h)
  {
    hide ValidTlvs, EncodeTlvs, TlvsFit;
    if family == 0x11 && |payload| >= 12 {
      TlvValidationIsExact(payload[12..]);
    } else if family == 0x21 && |payload| >= 36 {
      TlvValidationIsExact(payload[36..]);
    }
  }

  /** What the binary reader answers, from the four bytes after the signature. */
  lemma BinaryExactly(s: Bytes)
    ensures
      var (answer, rest) := ReadV2(s);
      if |s| < 4 then answer == Failed(Truncated) && rest == []
      else if s[0] != 0x20 && s[0] != 0x21 then answer == Failed(Malformed) && rest == s[4..]
      else
        var n := Wide(s[2], s[3]);
        if n > 4096 then answer == Failed(TooLarge) && rest == s[4..]
        else if |s| < 4 + n then answer == Failed(Truncated) && rest == []
        else
          && rest == s[4 + n..]
          && (s[0] == 0x20 ==> answer == Found(Header(Two, Local, LOCAL_ENDPOINT, LOCAL_ENDPOINT)))
          && (s[0] == 0x21 ==> answer == ParsePayload(1, s[1], s[4..4 + n]))
  {
    hide ParseAddresses, ValidTlvs, AddressLength;
    if |s| >= 4 {
      assert s[0] / 16 == 2 && s[0] % 16 <= 1 <==> s[0] == 0x20 || s[0] == 0x21;
      assert U16(s[2..4]) == Wide(s[2], s[3]);
    }
  }

  lemma PayloadNeverFoundOtherwise(family: byte, payload: Bytes)
    ensures ParsePayload(1, family, payload).Found? || ParsePayload(1, family, payload) == Failed(Malformed)
  {
  }

  lemma WrittenBinaryIsRead(wire: Bytes, rest: Bytes, h: Header)
    requires BinaryOf(wire, h)
    ensures ReadV2(wire[12..] + rest) == (Found(h), rest)
  {
    hide ReadV2, ParsePayload, PayloadOf;
    var s := wire[12..] + rest;
    BinaryExactly(s);
    assert s[..4] == wire[12..16];
    assert s[0] == wire[12] && s[1] == wire[13] && s[2] == wire[14] && s[3] == wire[15];
    var n := |wire| - 16;
    assert s[4..4 + n] == wire[16..] && s[4 + n..] == rest;
    PayloadExactly(wire[13], wire[16..], h);
  }

  lemma ReadBinaryIsWritten(s: Bytes, rest: Bytes, h: Header) returns (wire: Bytes)
    requires ReadV2(s) == (Found(h), rest)
    ensures BinaryOf(wire, h) && [13, 10, 13, 10, 0, 13, 10, 81, 85, 73, 84, 10] + s == wire + rest
  {
    hide ReadV2, ParsePayload, PayloadOf;
    BinaryExactly(s);
    var n := Wide(s[2], s[3]);
    wire := [13, 10, 13, 10, 0, 13, 10, 81, 85, 73, 84, 10] + s[..4 + n];
    assert s[..4 + n] + s[4 + n..] == s;
    assert wire[12] == s[0] && wire[13] == s[1] && wire[14] == s[2] && wire[15] == s[3];
    assert wire[16..] == s[4..4 + n];
    PayloadExactly(s[1], s[4..4 + n], h);
  }

  // ------------------------------------------------------------- theorems

  lemma {:induction false} NoSignature(text: Text, s: Bytes, n: nat, ended: bool)
    requires n <= |s|
    requires !([80, 82, 79, 88, 89, 32] <= s) && !([13, 10, 13, 10, 0, 13, 10, 81, 85, 73, 84, 10] <= s)
    ensures !Detect(text, s, n, ended).0.Found?
    ensures s <= [80, 82, 79, 88, 89, 32] || s <= [13, 10, 13, 10, 0, 13, 10, 81, 85, 73, 84, 10] ==>
      Detect(text, s, n, ended) == (Failed(if s == [] && ended then Ended else Truncated), [])
    decreases |s| - n
  {
    hide ReadLine, ReadV2;
    if n < |s| {
      assert s[..n + 1] <= s;
      NoSignature(text, s, n + 1, ended);
    }
  }

  /** A stream that ends inside a signature, or at once, is refused, and nothing of it is left. */
  lemma EndsInSignature(text: Text, s: Bytes, ended: bool)
    requires s <= [80, 82, 79, 88, 89] || s <= [13, 10, 13, 10, 0, 13, 10, 81, 85, 73, 84]
    ensures Read(text, s, ended) == (Failed(if s == [] && ended then Ended else Truncated), [])
  {
    hide Detect;
    assert s != [] ==> s[0] == 80 || s[0] == 13;
    assert s != [] && s[0] == 80 ==> |s| <= 5;
    NoSignature(text, s, 0, ended);
  }

  ghost predicate HeaderOf(text: Text, wire: Bytes, h: Header)
  {
    LineOf(text, wire, h) || BinaryOf(wire, h)
  }

  lemma SentencesAreRead(text: Text, wire: Bytes, rest: Bytes, ended: bool, h: Header)
    requires HeaderOf(text, wire, h)
    ensures Read(text, wire + rest, ended) == (Found(h), rest)
  {
    hide Detect, ReadLine, ReadV2, PayloadOf, BodyOf, BreaksAt;
    if LineOf(text, wire, h) {
      WrittenLineIsRead(text, wire, rest, h);
      assert wire + rest == SIG1 + (wire[6..] + rest);
      DetectV1(text, wire[6..] + rest, 0, ended);
    } else {
      WrittenBinaryIsRead(wire, rest, h);
      assert wire + rest == SIG2 + (wire[12..] + rest);
      DetectV2(text, wire[12..] + rest, 0, ended);
    }
  }

  lemma ReadIsASentence(text: Text, s: Bytes, rest: Bytes, ended: bool, h: Header) returns (wire: Bytes)
    requires Read(text, s, ended) == (Found(h), rest)
    ensures HeaderOf(text, wire, h) && s == wire + rest
  {
    hide Detect, ReadLine, ReadV2, LineOf, BinaryOf;
    if SIG1 <= s {
      assert s == SIG1 + s[6..];
      DetectV1(text, s[6..], 0, ended);
      wire := ReadLineIsWritten(text, s[6..], rest, h);
    } else if SIG2 <= s {
      assert s == SIG2 + s[12..];
      DetectV2(text, s[12..], 0, ended);
      wire := ReadBinaryIsWritten(s[12..], rest, h);
    } else {
      NoSignature(text, s, 0, ended);
      assert false;
    }
  }

  /**
   * The reader accepts a header and leaves `rest` exactly if the stream is a
   * sentence of the grammar for that header followed by `rest`.
   */
  lemma AcceptsExactlyHeaders(text: Text, s: Bytes, rest: Bytes, ended: bool, h: Header)
    ensures Read(text, s, ended) == (Found(h), rest) <==> exists wire :: HeaderOf(text, wire, h) && s == wire + rest
  {
    hide Read, HeaderOf;
    if Read(text, s, ended) == (Found(h), rest) {
      var wire := ReadIsASentence(text, s, rest, ended, h);
    }
    forall wire | HeaderOf(text, wire, h) && s == wire + rest ensures Read(text, s, ended) == (Found(h), rest) {
      SentencesAreRead(text, wire, rest, ended, h);
    }
  }

  lemma BodyAnswers(text: Text, body: Bytes)
    ensures ParseBody(text, body).Found? || ParseBody(text, body) == Failed(Malformed)
  {
    hide Split, ParseAddress, ParsePort;
  }

  lemma LineRefusals(text: Text, s: Bytes)
    ensures
      var answer := ReadLine(text, s, 0).0;
      answer.Found? || answer == Failed(
        if exists k: nat :: k <= 100 && BreaksAt(s, k) then Malformed else if |s| >= 102 then TooLarge else Truncated)
  {
    hide ReadLine, BreaksAt, ParseBody;
    LineExactly(text, s, 0);
    if k: nat :| k <= 100 && BreaksAt(s, k) {
      BreakFits(s, k);
      BodyAnswers(text, s[..k]);
    }
  }

  lemma BinaryRefusals(s: Bytes)
    ensures
      var answer := ReadV2(s).0;
      answer.Found? || answer == Failed(
        if |s| < 4 then Truncated
        else if s[0] != 0x20 && s[0] != 0x21 then Malformed
        else if Wide(s[2], s[3]) > 4096 then TooLarge
        else if |s| < 4 + Wide(s[2], s[3]) then Truncated
        else Malformed)
  {
    hide ReadV2, ParsePayload;
    BinaryExactly(s);
    if |s| >= 4 && |s| >= 4 + Wide(s[2], s[3]) {
      PayloadNeverFoundOtherwise(s[1], s[4..4 + Wide(s[2], s[3])]);
    }
  }

  /** Once a signature is complete, a stream that is not accepted is refused, and for which reason. */
  lemma RefusesExactly(text: Text, s: Bytes, ended: bool)
    ensures
      var answer := Read(text, s, ended).0;
      && ([80, 82, 79, 88, 89, 32] <= s ==> answer.Found? || answer == Failed(
            if exists k: nat :: k <= 100 && BreaksAt(s[6..], k) then Malformed
            else if |s| >= 108 then TooLarge else Truncated))
      && ([13, 10, 13, 10, 0, 13, 10, 81, 85, 73, 84, 10] <= s ==> answer.Found? || answer == Failed(
            if |s| < 16 then Truncated
            else if s[12] != 0x20 && s[12] != 0x21 then Malformed
            else if Wide(s[14], s[15]) > 4096 then TooLarge
            else if |s| < 16 + Wide(s[14], s[15]) then Truncated
            else Malformed))
  {
    hide Detect, ReadLine, ReadV2, BreaksAt, Wide;
    if SIG1 <= s {
      assert s == SIG1 + s[6..] && s[0] == 80;
      DetectV1(text, s[6..], 0, ended);
      LineRefusals(text, s[6..]);
    } else if SIG2 <= s {
      assert s == SIG2 + s[12..];
      DetectV2(text, s[12..], 0, ended);
      BinaryRefusals(s[12..]);
    }
  }

  /** Both endpoints are IPv4, or both are native IPv6. */
  predicate Expressible(h: Header)
  {
    || (h.source.addr.V4? && h.destination.addr.V4?)
    || (Native(h.source.addr) && Native(h.destination.addr))
  }

  /** The bytes of a header that names its endpoints. */
  function ProxyBytes(text: Text, h: Header): Bytes
    requires WellFormed(h.source) && WellFormed(h.destination) && Expressible(h)
  {
    var a, b := h.source, h.destination;
    if h.version == One then
      [80, 82, 79, 88, 89, 32]
        + FiveFields(if a.addr.V4? then [84, 67, 80, 52] else [84, 67, 80, 54], text.render(a.addr), text.render(b.addr),
                     PrintNumber(a.port), PrintNumber(b.port))
        + [13, 10]
    else
      [13, 10, 13, 10, 0, 13, 10, 81, 85, 73, 84, 10]
        + (if a.addr.V4? then [0x21, 0x11, 0, 12] else [0x21, 0x21, 0, 36])
        + a.addr.bytes + b.addr.bytes + [a.port / 256, a.port % 256, b.port / 256, b.port % 256]
  }

  lemma FamilyExactly(h: Header)
    ensures Family(h.source, h.destination).Some? <==> Expressible(h)
    ensures Expressible(h) ==> Family(h.source, h.destination) == Some(if h.source.addr.V4? then TCP4 else TCP6)
  {
    hide Mapped, Native;
    NativeIsUnmapped(h.source.addr);
    NativeIsUnmapped(h.destination.addr);
    NativeShape(h.source.addr);
    NativeShape(h.destination.addr);
  }

  /**
   * What the writer puts on the wire, byte for byte; it refuses exactly endpoints
   * of different or mapped or zoned families, and lines of more than 108 bytes.
   */
  lemma WritesExactly(text: Text, h: Header)
    requires WellFormed(h.source) && WellFormed(h.destination)
    ensures h.command == Local ==> Write(text, h) == Some(
      if h.version == One then [80, 82, 79, 88, 89, 32, 85, 78, 75, 78, 79, 87, 78, 13, 10]
      else [13, 10, 13, 10, 0, 13, 10, 81, 85, 73, 84, 10, 0x20, 0, 0, 0])
    ensures h.command == Proxy ==>
      Write(text, h) ==
        if !Expressible(h) || (h.version == One && |ProxyBytes(text, h)| > 108) then None
        else Some(ProxyBytes(text, h))
  {
    hide Family, Expressible, Join, FiveFields, PrintNumber, ProxyBytes;
    FamilyExactly(h);
    if h.command == Local {
      assert Line(UNKNOWN) == [80, 82, 79, 88, 89, 32, 85, 78, 75, 78, 79, 87, 78, 13, 10];
      assert SIG2 + [0x20, 0, 0, 0] == [13, 10, 13, 10, 0, 13, 10, 81, 85, 73, 84, 10, 0x20, 0, 0, 0];
    } else if Expressible(h) {
      if h.version == One {
        LineBytes(text, h);
      } else {
        BinaryBytes(text, h);
      }
    }
  }

  lemma LineBytes(text: Text, h: Header)
    requires WellFormed(h.source) && WellFormed(h.destination) && Expressible(h) && h.version == One
    ensures Line(Join(Fields(text, if h.source.addr.V4? then TCP4 else TCP6, h), SPACE)) == ProxyBytes(text, h)
  {
    hide Expressible, Join, FiveFields, PrintNumber;
    JoinOfFive(if h.source.addr.V4? then TCP4 else TCP6, text.render(h.source.addr), text.render(h.destination.addr),
               PrintNumber(h.source.port), PrintNumber(h.destination.port));
  }

  lemma BinaryBytes(text: Text, h: Header)
    requires WellFormed(h.source) && WellFormed(h.destination) && Expressible(h) && h.version == Two
    ensures !h.source.addr.NoAddr? && !h.destination.addr.NoAddr?
    ensures h.source.addr.V4? ==> SIG2 + [0x21, 0x11] + Put16(12) + EncodeAddresses(h) == ProxyBytes(text, h)
    ensures !h.source.addr.V4? ==> SIG2 + [0x21, 0x21] + Put16(36) + EncodeAddresses(h) == ProxyBytes(text, h)
  {
    EndpointsShaped(h);
    hide Expressible;
    var head := if h.source.addr.V4? then [0x21, 0x11, 0, 12] else [0x21, 0x21, 0, 36];
    assert Put16(12) == [0, 12] && Put16(36) == [0, 36];
    assert (if h.source.addr.V4? then [0x21, 0x11] + Put16(12) else [0x21, 0x21] + Put16(36)) == head;
    assert Put16(h.source.port) + Put16(h.destination.port)
      == [h.source.port / 256, h.source.port % 256, h.destination.port / 256, h.destination.port % 256];
  }

  lemma EndpointsShaped(h: Header)
    requires Expressible(h)
    ensures !h.source.addr.NoAddr? && !h.destination.addr.NoAddr?
  {
  }
}
