/** Round trips of PROXY headers, and what detection keeps. */
module ProxyProtocolLaws {
  import opened Bytes
  import opened Options
  import opened Splitting
  import opened ProxyProtocol

  // --------------------------------------------------------------- detection

  lemma {:induction false} DetectV1(text: Text, rest: Bytes, n: nat, ended: bool)
    requires n < |SIG1|
    ensures Detect(text, SIG1 + rest, n, ended) == ReadLine(text, rest, 0)
    decreases |SIG1| - n
  {
    hide ReadLine;
    var s := SIG1 + rest;
    assert s[..n + 1] == SIG1[..n + 1];
    if n + 1 < |SIG1| {
      DetectV1(text, rest, n + 1, ended);
    } else {
      assert s[n + 1..] == rest;
    }
  }

  lemma {:induction false} DetectV2(text: Text, rest: Bytes, n: nat, ended: bool)
    requires n < |SIG2|
    ensures Detect(text, SIG2 + rest, n, ended) == ReadV2(rest)
    decreases |SIG2| - n
  {
    hide ReadV2;
    var s := SIG2 + rest;
    assert s[..n + 1] == SIG2[..n + 1];
    assert s[..n + 1][0] == CR;
    if n + 1 < |SIG2| {
      DetectV2(text, rest, n + 1, ended);
    } else {
      assert s[n + 1..] == rest;
    }
  }

  /** The stream neither starts with a signature nor ends inside one. */
  predicate Foreign(s: Bytes)
  {
    !(SIG1 <= s) && !(SIG2 <= s) && !(s <= SIG1) && !(s <= SIG2)
  }

  /** The shortest prefix of the stream that starts no signature. */
  predicate Shortest(s: Bytes, p: Bytes)
  {
    && p <= s && !(p <= SIG1) && !(p <= SIG2)
    && forall k :: 0 <= k < |p| ==> s[..k] <= SIG1 || s[..k] <= SIG2
  }

  lemma LineNeverReplays(text: Text, s: Bytes, n: nat)
    requires n <= |s|
    ensures !ReadLine(text, s, n).0.Replay?
    decreases |s| - n
  {
  }

  lemma {:induction false} DetectReplays(text: Text, s: Bytes, n: nat, ended: bool)
    requires n <= |s| && n <= 12
    requires forall k :: 0 <= k <= n ==> s[..k] <= SIG1 || s[..k] <= SIG2
    requires !(SIG1 <= s[..n]) && !(SIG2 <= s[..n])
    ensures var (answer, rest) := Detect(text, s, n, ended);
      && (answer.Replay? <==> Foreign(s))
      && (answer.Replay? ==> answer.bytes + rest == s && |answer.bytes| <= 12 && Shortest(s, answer.bytes))
    decreases |s| - n
  {
    hide ReadLine, ReadV2, Shortest, Foreign;
    if n == |s| {
      assert s[..n] == s;
      NotForeign(s, s);
    } else {
      var prefix := s[..n + 1];
      assert prefix <= s;
      if prefix == SIG1 {
        LineNeverReplays(text, s[n + 1..], 0);
        NotForeign(s, prefix);
      } else if prefix == SIG2 {
        V2NeverReplays(s[n + 1..]);
        NotForeign(s, prefix);
      } else if prefix <= SIG1 || prefix <= SIG2 {
        NotWhole(prefix, s[..n]);
        DetectReplays(text, s, n + 1, ended);
      } else {
        ForeignPrefix(s, n);
        ReplayedHere(s, n);
      }
    }
  }

  lemma NotForeign(s: Bytes, prefix: Bytes)
    requires prefix <= s
    requires prefix == SIG1 || prefix == SIG2 || (prefix == s && (s <= SIG1 || s <= SIG2))
    ensures !Foreign(s)
  {
  }

  lemma ReplayedHere(s: Bytes, n: nat)
    requires n < |s| && !(s[..n + 1] <= SIG1) && !(s[..n + 1] <= SIG2)
    requires forall k :: 0 <= k <= n ==> s[..k] <= SIG1 || s[..k] <= SIG2
    ensures s[..n + 1] + s[n + 1..] == s && Shortest(s, s[..n + 1])
  {
  }

  lemma V2NeverReplays(s: Bytes)
    ensures !ReadV2(s).0.Replay?
  {
  }

  lemma NotWhole(prefix: Bytes, shorter: Bytes)
    requires |prefix| == |shorter| + 1 && shorter <= prefix && (prefix <= SIG1 || prefix <= SIG2)
    requires prefix != SIG1 && prefix != SIG2
    ensures !(SIG1 <= prefix) && !(SIG2 <= prefix) && |prefix| <= 12
  {
    assert SIG1[0] != SIG2[0];
  }

  lemma ForeignPrefix(s: Bytes, n: nat)
    requires n < |s| && n <= 12 && (s[..n] <= SIG1 || s[..n] <= SIG2)
    requires !(SIG1 <= s[..n]) && !(SIG2 <= s[..n])
    requires !(s[..n + 1] <= SIG1) && !(s[..n + 1] <= SIG2)
    ensures Foreign(s) && n < 12
  {
    assert s[..n + 1] <= s;
  }

  /**
   * Ordinary data is replayed exactly when the stream neither starts with a
   * signature nor ends inside one; then at most 12 bytes were read, and they
   * followed by the rest are the stream.
   */
  lemma DetectionKeepsForeignStreams(text: Text, s: Bytes, ended: bool)
    ensures var (answer, rest) := Read(text, s, ended);
      && (answer.Replay? <==> Foreign(s))
      && (answer.Replay? ==> answer.bytes + rest == s && |answer.bytes| <= 12 && Shortest(s, answer.bytes))
  {
    DetectReplays(text, s, 0, ended);
  }

  // --------------------------------------------------------------- version 2

  function Fixed(family: byte, n: nat): Bytes
    requires n < 65536
  {
    [0x21, family] + Put16(n)
  }

  lemma V4AddressesRoundTrip(h: Header, extra: Bytes)
    requires WellFormed(h.source) && WellFormed(h.destination) && h.source.addr.V4? && h.destination.addr.V4?
    requires h.version == Two && h.command == Proxy
    ensures |EncodeAddresses(h)| == 12 && ParseAddresses(0x11, EncodeAddresses(h) + extra) == h
    ensures (EncodeAddresses(h) + extra)[12..] == extra
  {
    var s := EncodeAddresses(h) + extra;
    assert s[0..4] == h.source.addr.bytes && s[4..8] == h.destination.addr.bytes;
    assert s[8..10] == Put16(h.source.port) && s[10..12] == Put16(h.destination.port);
  }

  lemma V6AddressesRoundTrip(h: Header, extra: Bytes)
    requires WellFormed(h.source) && WellFormed(h.destination) && h.source.addr.V6? && h.destination.addr.V6?
    requires h.source.addr.zone == [] && h.destination.addr.zone == []
    requires h.version == Two && h.command == Proxy
    ensures |EncodeAddresses(h)| == 36 && ParseAddresses(0x21, EncodeAddresses(h) + extra) == h
    ensures (EncodeAddresses(h) + extra)[36..] == extra
  {
    var s := EncodeAddresses(h) + extra;
    assert s[0..16] == h.source.addr.bytes && s[16..32] == h.destination.addr.bytes;
    assert s[32..34] == Put16(h.source.port) && s[34..36] == Put16(h.destination.port);
  }

  lemma FramedV2(family: byte, payload: Bytes, trailing: Bytes)
    requires |payload| <= V2_MAX_PAYLOAD
    ensures ReadV2(Fixed(family, |payload|) + payload + trailing) == (ParsePayload(1, family, payload), trailing)
  {
    hide ParsePayload;
    var s := Fixed(family, |payload|) + payload + trailing;
    assert s[2..4] == Put16(|payload|);
    assert s[4..4 + |payload|] == payload && s[4 + |payload|..] == trailing;
  }

  /** A version 2 header followed by any well-formed TLVs, up to the payload limit. */
  function WithTlvs(h: Header, tlvs: Bytes): Bytes
    requires Canonical(h) && h.command == Proxy && Family(h.source, h.destination).Some?
    requires |EncodeAddresses(h)| + |tlvs| <= V2_MAX_PAYLOAD
  {
    var payload := EncodeAddresses(h) + tlvs;
    SIG2 + (Fixed(if h.source.addr.V4? then 0x11 else 0x21, |payload|) + payload)
  }

  /** TLVs after the addresses change nothing about the header that is read. */
  lemma V2RoundTrip(text: Text, h: Header, tlvs: Bytes, trailing: Bytes, ended: bool)
    requires Canonical(h) && h.version == Two && h.command == Proxy && Family(h.source, h.destination).Some?
    requires ValidTlvs(tlvs) && |EncodeAddresses(h)| + |tlvs| <= V2_MAX_PAYLOAD
    ensures Read(text, WithTlvs(h, tlvs) + trailing, ended) == (Found(h), trailing)
  {
    hide Detect, ReadV2, ParseAddresses, ValidTlvs, EncodeAddresses;
    var family: byte := if h.source.addr.V4? then 0x11 else 0x21;
    var payload := EncodeAddresses(h) + tlvs;
    var rest := Fixed(family, |payload|) + payload + trailing;
    assert WithTlvs(h, tlvs) + trailing == SIG2 + rest;
    DetectV2(text, rest, 0, ended);
    FramedV2(family, payload, trailing);
    if h.source.addr.V4? {
      V4AddressesRoundTrip(h, tlvs);
    } else {
      V6AddressesRoundTrip(h, tlvs);
    }
  }

  datatype Tlv = Tlv(kind: byte, value: Bytes)

  predicate TlvsFit(tlvs: seq<Tlv>)
  {
    forall i :: 0 <= i < |tlvs| ==> |tlvs[i].value| < 65536
  }

  function EncodeTlvs(tlvs: seq<Tlv>): Bytes
    requires TlvsFit(tlvs)
  {
    if tlvs == [] then [] else [tlvs[0].kind] + Put16(|tlvs[0].value|) + tlvs[0].value + EncodeTlvs(tlvs[1..])
  }

  lemma {:induction false} EncodedTlvsAreValid(tlvs: seq<Tlv>)
    requires TlvsFit(tlvs)
    ensures ValidTlvs(EncodeTlvs(tlvs))
  {
    if tlvs != [] {
      var s, n := EncodeTlvs(tlvs), |tlvs[0].value|;
      assert s[1..3] == Put16(n) && s[3 + n..] == EncodeTlvs(tlvs[1..]);
      EncodedTlvsAreValid(tlvs[1..]);
    }
  }

  lemma {:induction false} ValidTlvsAreEncoded(s: Bytes) returns (tlvs: seq<Tlv>)
    requires ValidTlvs(s)
    ensures TlvsFit(tlvs) && EncodeTlvs(tlvs) == s
    decreases |s|
  {
    if s == [] {
      return [];
    }
    var n := U16(s[1..3]);
    U16Inverse(s[1..3]);
    var rest := ValidTlvsAreEncoded(s[3 + n..]);
    var first := Tlv(s[0], s[3..3 + n]);
    tlvs := [first] + rest;
    assert tlvs[1..] == rest;
    assert s == [s[0]] + s[1..3] + s[3..3 + n] + s[3 + n..];
  }

  /** The validation loop accepts exactly the concatenations of type-length-value items. */
  lemma TlvValidationIsExact(s: Bytes)
    ensures ValidTlvs(s) <==> exists tlvs :: TlvsFit(tlvs) && EncodeTlvs(tlvs) == s
  {
    hide ValidTlvs, EncodeTlvs, TlvsFit;
    if ValidTlvs(s) {
      var tlvs := ValidTlvsAreEncoded(s);
    }
    forall tlvs | TlvsFit(tlvs) && EncodeTlvs(tlvs) == s ensures ValidTlvs(s) {
      EncodedTlvsAreValid(tlvs);
    }
  }

  // --------------------------------------------------------------- version 1

  lemma {:induction false} LineFound(text: Text, body: Bytes, trailing: Bytes, n: nat)
    requires CR !in body && n <= |body| + 1 && |Line(body)| <= V1_MAX
    ensures ReadLine(text, body + [CR, LF] + trailing, n) == (ParseBody(text, body), trailing)
    decreases |body| + 1 - n
  {
    hide ParseBody;
    var s := body + [CR, LF] + trailing;
    if n <= |body| {
      if n > 0 {
        assert s[n - 1] == body[n - 1];
        assert s[..n + 1][n - 1] != CR;
      }
      LineFound(text, body, trailing, n + 1);
    } else {
      assert s[..n - 1] == body && s[n + 1..] == trailing;
      assert s[..n + 1][n - 1] == CR && s[..n + 1][n] == LF;
    }
  }

  lemma {:induction false} JoinHasNo(parts: seq<Bytes>, sep: byte, b: byte)
    requires |parts| >= 1 && sep != b && forall i :: 0 <= i < |parts| ==> b !in parts[i]
    ensures b !in Join(parts, sep)
  {
    if |parts| > 1 {
      JoinHasNo(parts[..|parts| - 1], sep, b);
    }
  }

  lemma {:induction false} JoinStarts(parts: seq<Bytes>, sep: byte)
    requires |parts| >= 1
    ensures parts[0] <= Join(parts, sep)
  {
    if |parts| > 1 {
      JoinStarts(parts[..|parts| - 1], sep);
    }
  }

  lemma FieldsArePlain(text: Text, family: Bytes, h: Header)
    requires Inverse(text) && WellFormed(h.source) && WellFormed(h.destination)
    requires Family(h.source, h.destination) == Some(family)
    ensures forall i :: 0 <= i < 5 ==> Plain(Fields(text, family, h)[i])
  {
    PortRoundTrip(h.source.port);
    PortRoundTrip(h.destination.port);
    hide PrintNumber;
    var fields := Fields(text, family, h);
    assert Plain(fields[0]) && Plain(fields[1]) && Plain(fields[2]) && Plain(fields[3]) && Plain(fields[4]);
  }

  lemma TupleRoundTrip(text: Text, family: Bytes, h: Header)
    requires Inverse(text) && WellFormed(h.source) && WellFormed(h.destination)
    requires h.version == One && h.command == Proxy && Family(h.source, h.destination) == Some(family)
    ensures ParseTuple(text, Fields(text, family, h)) == Found(h)
  {
    hide PrintNumber, ParsePort;
    PortRoundTrip(h.source.port);
    PortRoundTrip(h.destination.port);
  }

  lemma BodyIsATuple(text: Text, fields: seq<Bytes>)
    requires |fields| == 5 && (fields[0] == TCP4 || fields[0] == TCP6)
    requires forall i :: 0 <= i < 5 ==> Plain(fields[i])
    ensures ParseBody(text, Join(fields, SPACE)) == ParseTuple(text, fields)
    ensures CR !in Join(fields, SPACE)
  {
    hide ParseTuple, Join, Split;
    var body := Join(fields, SPACE);
    JoinHasNo(fields, SPACE, CR);
    SplitJoin(fields, SPACE);
    JoinStarts(fields, SPACE);
    assert body[0] == 84;
  }

  lemma V1RoundTrip(text: Text, h: Header, trailing: Bytes, ended: bool)
    requires Inverse(text) && Canonical(h) && h.version == One && WriteV1(text, h).Some?
    ensures Read(text, WriteV1(text, h).value + trailing, ended) == (Found(h), trailing)
  {
    hide Detect, ReadLine, ParseTuple, Join, Split, Fields, Inverse;
    if h.command == Local {
      DetectV1(text, UNKNOWN + [CR, LF] + trailing, 0, ended);
      LineFound(text, UNKNOWN, trailing, 0);
      assert Line(UNKNOWN) + trailing == SIG1 + (UNKNOWN + [CR, LF] + trailing);
    } else {
      var family := Family(h.source, h.destination).value;
      var fields := Fields(text, family, h);
      FieldsArePlain(text, family, h);
      FamilyHeads(text, family, h);
      var body := Join(fields, SPACE);
      BodyIsATuple(text, fields);
      TupleRoundTrip(text, family, h);
      DetectV1(text, body + [CR, LF] + trailing, 0, ended);
      LineFound(text, body, trailing, 0);
      assert Line(body) + trailing == SIG1 + (body + [CR, LF] + trailing);
    }
  }

  lemma FamilyHeads(text: Text, family: Bytes, h: Header)
    requires Family(h.source, h.destination) == Some(family)
    ensures |Fields(text, family, h)| == 5 && Fields(text, family, h)[0] == family && (family == TCP4 || family == TCP6)
  {
  }

  // ------------------------------------------------------------- both versions

  lemma LocalV2RoundTrip(text: Text, trailing: Bytes, ended: bool)
    ensures Read(text, SIG2 + [0x20, 0, 0, 0] + trailing, ended) == (Found(Header(Two, Local, NOWHERE, NOWHERE)), trailing)
  {
    hide Detect;
    var rest := [0x20, 0, 0, 0] + trailing;
    assert SIG2 + [0x20, 0, 0, 0] + trailing == SIG2 + rest;
    DetectV2(text, rest, 0, ended);
    assert rest[2..4] == [0, 0] && rest[4..4] == [] && rest[4..] == trailing;
  }

  lemma WrittenV2HasNoTlvs(h: Header)
    requires Canonical(h) && h.version == Two && h.command == Proxy && WriteV2(h).Some?
    ensures Family(h.source, h.destination).Some? && |EncodeAddresses(h)| <= V2_MAX_PAYLOAD
    ensures WriteV2(h).value == WithTlvs(h, [])
  {
    assert EncodeAddresses(h) + [] == EncodeAddresses(h);
    var family: byte := if h.source.addr.V4? then 0x11 else 0x21;
    var n := |EncodeAddresses(h)|;
    assert SIG2 + [0x21, family] + Put16(n) + EncodeAddresses(h) == SIG2 + (Fixed(family, n) + EncodeAddresses(h));
  }

  /**
   * Whatever header can be written is read back from the written bytes, and
   * exactly the bytes after it are left in the stream.
   */
  lemma HeaderRoundTrip(text: Text, h: Header, trailing: Bytes, ended: bool)
    requires Inverse(text) && Canonical(h) && Write(text, h).Some?
    ensures Read(text, Write(text, h).value + trailing, ended) == (Found(h), trailing)
  {
    hide Read, WriteV1, Inverse, WithTlvs, Family, EncodeAddresses;
    if h.version == One {
      V1RoundTrip(text, h, trailing, ended);
    } else if h.command == Local {
      LocalV2RoundTrip(text, trailing, ended);
    } else {
      WrittenV2HasNoTlvs(h);
      V2RoundTrip(text, h, [], trailing, ended);
    }
  }
}
