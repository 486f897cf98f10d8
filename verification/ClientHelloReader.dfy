/**
 * Reading one ClientHello from a byte stream, record by record (section 5.1 of
 * RFC 8446), keeping every consumed byte so that it can be forwarded.
 */
module ClientHelloReader {
  import opened Bytes
  import opened Options
  import opened ClientHello

  const RECORD_HEADER := 5
  const HANDSHAKE_HEADER := 4
  const MAX_RECORD := 16384
  const HANDSHAKE_RECORD := 22
  const CLIENT_HELLO := 1

  datatype Probe = Probe(raw: Bytes, result: Result<Info>)

  // ----------------------------------------------------- the record protocol

  /** What the handshake bytes collected so far say: an answer, or nothing yet. */
  function Judge(handshake: Bytes, maxBytes: nat): Option<Result<Info>>
  {
    if |handshake| < HANDSHAKE_HEADER then None
    else if handshake[0] != CLIENT_HELLO then Some(Err(Malformed))
    else
      var total := HANDSHAKE_HEADER + U24(handshake[1..4]);
      if total > maxBytes then Some(Err(TooLarge))
      else if |handshake| < total then None
      else Some(ParseBody(handshake[HANDSHAKE_HEADER..total]))
  }

  function ReadRecords(s: Bytes, raw: Bytes, handshake: Bytes, maxBytes: nat): Probe
    decreases |s|
  {
    if RECORD_HEADER > maxBytes - |raw| then Probe(raw, Err(TooLarge))
    else if |s| < RECORD_HEADER then Probe(raw + s, Err(Truncated))
    else
      var withHeader := raw + s[..5];
      var n := U16(s[3..5]);
      if s[0] != HANDSHAKE_RECORD || s[1] != 3 || n > MAX_RECORD then Probe(withHeader, Err(Malformed))
      else if n > maxBytes - |withHeader| then Probe(withHeader, Err(TooLarge))
      else if |s| - 5 < n then Probe(withHeader + s[5..], Err(Truncated))
      else
        var next := handshake + s[5..5 + n];
        match Judge(next, maxBytes)
        case Some(answer) => Probe(withHeader + s[5..5 + n], answer)
        case None => ReadRecords(s[5 + n..], withHeader + s[5..5 + n], next, maxBytes)
  }

  function Read(input: Bytes, maxBytes: int): Probe
  {
    if maxBytes <= 0 then Probe([], Err(TooLarge)) else ReadRecords(input, [], [], maxBytes)
  }

  lemma {:induction false} ReadKeepsStream(s: Bytes, raw: Bytes, handshake: Bytes, maxBytes: nat)
    requires |raw| <= maxBytes
    ensures var p := ReadRecords(s, raw, handshake, maxBytes);
      raw <= p.raw <= raw + s && |p.raw| <= maxBytes
    decreases |s|
  {
    if RECORD_HEADER <= maxBytes - |raw| && |s| >= RECORD_HEADER {
      var withHeader := raw + s[..5];
      assert raw + s == withHeader + s[5..];
      var n := U16(s[3..5]);
      if n <= |s| - 5 && n <= maxBytes - |withHeader| {
        assert raw + s == withHeader + s[5..5 + n] + s[5 + n..];
        ReadKeepsStream(s[5 + n..], withHeader + s[5..5 + n], handshake + s[5..5 + n], maxBytes);
      }
    }
  }

  /** On success and on every error, what was consumed is a prefix of the input, never longer than the limit. */
  lemma ReadIsLossless(input: Bytes, maxBytes: int)
    ensures var p := Read(input, maxBytes);
      p.raw <= input && |p.raw| <= (if maxBytes <= 0 then 0 else maxBytes)
  {
    if maxBytes > 0 {
      ReadKeepsStream(input, [], [], maxBytes);
      assert [] + input == input;
    }
  }

  // ------------------------------------------------------------ fragmentation

  datatype Fragment = Fragment(minor: byte, payload: Bytes)

  predicate RecordsFit(fragments: seq<Fragment>)
  {
    forall i :: 0 <= i < |fragments| ==> |fragments[i].payload| <= 16384
  }

  function Record(f: Fragment): Bytes
    requires |f.payload| <= 16384
  {
    [22, 3, f.minor] + Put16(|f.payload|) + f.payload
  }

  function Records(fragments: seq<Fragment>): Bytes
    requires RecordsFit(fragments)
  {
    if fragments == [] then [] else Record(fragments[0]) + Records(fragments[1..])
  }

  function Payload(fragments: seq<Fragment>): Bytes
  {
    if fragments == [] then [] else fragments[0].payload + Payload(fragments[1..])
  }

  function Message(body: Bytes): Bytes
    requires |body| < 16777216
  {
    [1] + Put24(|body|) + body
  }

  /**
   * The records carry the message, possibly followed by bytes of a later one,
   * and the message ends in the last record. Records may be empty.
   */
  ghost predicate Splits(fragments: seq<Fragment>, sofar: Bytes, message: Bytes)
  {
    && fragments != [] && RecordsFit(fragments)
    && message <= sofar + Payload(fragments)
    && |sofar + Payload(fragments[..|fragments| - 1])| < |message|
  }

  lemma RecordHeader(f: Fragment, rest: Bytes)
    requires |f.payload| <= MAX_RECORD
    ensures var s := Record(f) + rest;
      && |s| == 5 + |f.payload| + |rest|
      && s[0] == HANDSHAKE_RECORD && s[1] == 3 && U16(s[3..5]) == |f.payload|
      && s[..5] + s[5..5 + |f.payload|] == Record(f)
      && s[5..5 + |f.payload|] == f.payload && s[5 + |f.payload|..] == rest
  {
    var s := Record(f) + rest;
    assert s[3..5] == Put16(|f.payload|);
    assert s[..5] + s[5..5 + |f.payload|] == Record(f);
  }

  /** One record that arrives whole: it is refused for its size, or judged together with what came before. */
  lemma ReadOne(f: Fragment, rest: Bytes, raw: Bytes, handshake: Bytes, maxBytes: nat)
    requires |f.payload| <= MAX_RECORD
    ensures var p := ReadRecords(Record(f) + rest, raw, handshake, maxBytes);
      if |raw| + |Record(f)| > maxBytes then p.result == Err(TooLarge)
      else
        match Judge(handshake + f.payload, maxBytes)
        case Some(answer) => p == Probe(raw + Record(f), answer)
        case None => p == ReadRecords(rest, raw + Record(f), handshake + f.payload, maxBytes)
  {
    hide Judge, Record;
    RecordHeader(f, rest);
    RecordSize(f);
    var s := Record(f) + rest;
    assert raw + s[..5] + s[5..5 + |f.payload|] == raw + Record(f);
  }

  lemma RecordSize(f: Fragment)
    requires |f.payload| <= MAX_RECORD
    ensures |Record(f)| == 5 + |f.payload|
  {
  }

  lemma JudgeMessage(handshake: Bytes, body: Bytes, maxBytes: nat)
    requires |body| < 16777216
    requires handshake <= Message(body) || Message(body) <= handshake
    ensures Judge(handshake, maxBytes) ==
      if |handshake| < HANDSHAKE_HEADER then None
      else if |Message(body)| > maxBytes then Some(Err(TooLarge))
      else if |handshake| < |Message(body)| then None
      else Some(ParseBody(body))
  {
    hide ParseBody;
    var message := Message(body);
    assert message[1..4] == Put24(|body|);
    if |handshake| >= HANDSHAKE_HEADER {
      assert handshake[..4] == message[..4];
      assert handshake[1..4] == handshake[..4][1..] == message[1..4];
      assert handshake[0] == CLIENT_HELLO;
      if |handshake| >= |message| {
        assert handshake[..|message|] == message;
        assert handshake[4..|message|] == message[4..] == body;
      }
    }
  }

  lemma SplitStep(fragments: seq<Fragment>, sofar: Bytes, message: Bytes)
    requires Splits(fragments, sofar, message)
    ensures |fragments| == 1 ==> message <= sofar + fragments[0].payload
    ensures |fragments| > 1 ==>
      && Splits(fragments[1..], sofar + fragments[0].payload, message)
      && sofar + fragments[0].payload < message
  {
    var rest := fragments[1..];
    var next := sofar + fragments[0].payload;
    assert next + Payload(rest) == sofar + Payload(fragments);
    if |fragments| > 1 {
      var front := fragments[..|fragments| - 1];
      assert front[1..] == rest[..|rest| - 1];
      assert next + Payload(rest[..|rest| - 1]) == sofar + Payload(front);
      assert next <= next + Payload(rest);
    } else {
      assert next + Payload(rest) == next;
    }
  }

  lemma {:induction false} FragmentsRead(
    fragments: seq<Fragment>, sofar: Bytes, raw: Bytes, body: Bytes, trailing: Bytes, maxBytes: nat)
    requires |body| < 16777216 && Splits(fragments, sofar, Message(body)) && |sofar| <= |raw|
    ensures var p := ReadRecords(Records(fragments) + trailing, raw, sofar, maxBytes);
      if |raw| + |Records(fragments)| <= maxBytes then p == Probe(raw + Records(fragments), ParseBody(body))
      else p.result == Err(TooLarge)
    decreases |fragments|
  {
    hide ReadRecords, Judge, Record, Message, ParseBody, Splits;
    SplitsFit(fragments, sofar, Message(body));
    var f, rest := fragments[0], fragments[1..];
    var next := sofar + f.payload;
    assert Records(fragments) + trailing == Record(f) + (Records(rest) + trailing);
    ReadOne(f, Records(rest) + trailing, raw, sofar, maxBytes);
    SplitStep(fragments, sofar, Message(body));
    JudgeMessage(next, body, maxBytes);
    RecordSize(f);
    MessageWithin(fragments, sofar, Message(body));
    MessageSize(body);
    if |fragments| > 1 {
      assert raw + Record(f) + Records(rest) == raw + Records(fragments);
      FragmentsRead(rest, next, raw + Record(f), body, trailing, maxBytes);
    } else {
      assert Records(fragments) == Record(f);
    }
  }

  lemma MessageSize(body: Bytes)
    requires |body| < 16777216
    ensures |Message(body)| == HANDSHAKE_HEADER + |body|
  {
  }

  lemma SplitsFit(fragments: seq<Fragment>, sofar: Bytes, message: Bytes)
    requires Splits(fragments, sofar, message)
    ensures fragments != [] && RecordsFit(fragments) && RecordsFit(fragments[1..])
  {
  }

  lemma {:induction false} PayloadWithin(fragments: seq<Fragment>)
    requires RecordsFit(fragments)
    ensures |Payload(fragments)| <= |Records(fragments)|
  {
    if fragments != [] {
      PayloadWithin(fragments[1..]);
    }
  }

  lemma MessageWithin(fragments: seq<Fragment>, sofar: Bytes, message: Bytes)
    requires Splits(fragments, sofar, message)
    ensures |message| <= |sofar| + |Records(fragments)|
  {
    PayloadWithin(fragments);
  }

  /**
   * However a ClientHello message is cut into records, reading it gives the
   * parse of its body and consumes exactly those records, provided they fit the
   * limit; otherwise the answer is that it is too large, and nothing else.
   */
  lemma FragmentationIsInvisible(fragments: seq<Fragment>, body: Bytes, trailing: Bytes, maxBytes: int)
    requires |body| < 16777216 && Splits(fragments, [], Message(body))
    ensures var p := Read(Records(fragments) + trailing, maxBytes);
      if |Records(fragments)| <= maxBytes then p == Probe(Records(fragments), ParseBody(body))
      else p.result == Err(TooLarge)
  {
    hide ReadRecords, Splits, ParseBody;
    SplitsFit(fragments, [], Message(body));
    if maxBytes > 0 {
      FragmentsRead(fragments, [], [], body, trailing, maxBytes);
      assert [] + Records(fragments) == Records(fragments);
    } else {
      RecordSize(fragments[0]);
    }
  }

  /** Two ways to cut the same message give the same answer. */
  lemma FragmentationsAgree(a: seq<Fragment>, b: seq<Fragment>, body: Bytes, rest: Bytes, other: Bytes, maxBytes: int)
    requires |body| < 16777216 && Splits(a, [], Message(body)) && Splits(b, [], Message(body))
    requires |Records(a)| <= maxBytes && |Records(b)| <= maxBytes
    ensures Read(Records(a) + rest, maxBytes).result == Read(Records(b) + other, maxBytes).result
  {
    hide Read, Splits, ParseBody;
    FragmentationIsInvisible(a, body, rest, maxBytes);
    FragmentationIsInvisible(b, body, other, maxBytes);
  }

  /** End to end: any record split of any well-formed hello yields its server name and protocols. */
  lemma HelloRoundTrip(h: Hello, fragments: seq<Fragment>, trailing: Bytes, maxBytes: int)
    requires HelloFits(h) && |EncodeBody(h)| < 16777216 && Splits(fragments, [], Message(EncodeBody(h)))
    requires |Records(fragments)| <= maxBytes
    ensures Read(Records(fragments) + trailing, maxBytes) == Probe(Records(fragments), Ok(InfoOf(h)))
  {
    hide Read, Splits, ParseBody, EncodeBody, HelloFits, InfoOf;
    BodyRoundTrip(h);
    FragmentationIsInvisible(fragments, EncodeBody(h), trailing, maxBytes);
  }

  /** A whole hello in one record, in bytes: 22 3 x, the record's length, 1, the message's length, the body. */
  lemma RecordOnTheWire(minor: byte, body: Bytes, trailing: Bytes, maxBytes: int)
    requires |body| <= 16380 && 9 + |body| <= maxBytes
    ensures
      var n, m := 4 + |body|, |body|;
      var wire := [22, 3, minor, n / 256, n % 256, 1, m / 65536, (m / 256) % 256, m % 256] + body;
      Read(wire + trailing, maxBytes) == Probe(wire, ParseBody(body))
  {
    hide Read, ParseBody;
    var n, m := 4 + |body|, |body|;
    var wire := [22, 3, minor, n / 256, n % 256, 1, m / 65536, (m / 256) % 256, m % 256] + body;
    var f := Fragment(minor, Message(body));
    assert Payload([]) == [] && [f][1..] == [] && [f][..0] == [];
    assert Payload([f]) == Message(body) + [];
    assert [] + Payload([f]) == Message(body) && [] + Payload([]) == [];
    assert Records([f]) == Record(f) + [];
    assert Record(f) == [22, 3, minor] + [n / 256, n % 256] + ([1] + [m / 65536, (m / 256) % 256, m % 256] + body);
    assert Records([f]) == wire;
    FragmentationIsInvisible([f], body, trailing, maxBytes);
  }

  // -------------------------------------------- nothing else is ever accepted

  lemma JudgedMessage(sofar: Bytes, more: Bytes, maxBytes: nat) returns (body: Bytes)
    requires Judge(sofar, maxBytes).None? && Judge(sofar + more, maxBytes).Some? && Judge(sofar + more, maxBytes).value.Ok?
    ensures |body| < 16777216 && Message(body) <= sofar + more && |sofar| < |Message(body)|
    ensures Judge(sofar + more, maxBytes) == Some(ParseBody(body))
  {
    hide ParseBody;
    var next := sofar + more;
    var n := U24(next[1..4]);
    body := next[4..4 + n];
    U24Inverse(next[1..4]);
    assert next[..4 + n] == [next[0]] + next[1..4] + body;
    if |sofar| >= 4 {
      assert next[1..4] == sofar[1..4];
    }
  }

  lemma U24Inverse(s: Bytes)
    requires |s| == 3
    ensures U24(s) < 16777216 && Put24(U24(s)) == s
  {
    assert U24(s) / 65536 == s[0] && (U24(s) / 256) % 256 == s[1] && U24(s) % 256 == s[2];
  }

  lemma SplitOne(f: Fragment, sofar: Bytes, message: Bytes)
    requires |f.payload| <= 16384 && message <= sofar + f.payload && |sofar| < |message|
    ensures Splits([f], sofar, message) && Records([f]) == Record(f)
  {
    assert [f][1..] == [] && [f][..0] == [];
    assert Payload([f]) == f.payload + [];
    assert sofar + Payload([]) == sofar && f.payload + [] == f.payload;
    assert Records([f]) == Record(f) + [];
  }

  lemma SplitMore(f: Fragment, rest: seq<Fragment>, sofar: Bytes, message: Bytes)
    requires |f.payload| <= 16384 && Splits(rest, sofar + f.payload, message)
    ensures Splits([f] + rest, sofar, message) && Records([f] + rest) == Record(f) + Records(rest)
  {
    var all := [f] + rest;
    assert all[1..] == rest && all[..|all| - 1] == [f] + rest[..|rest| - 1];
    assert ([f] + rest[..|rest| - 1])[1..] == rest[..|rest| - 1];
    assert sofar + Payload(all) == sofar + f.payload + Payload(rest);
    assert sofar + Payload([f] + rest[..|rest| - 1]) == sofar + f.payload + Payload(rest[..|rest| - 1]);
  }

  lemma RecordAt(s: Bytes)
    requires |s| >= 5 && s[0] == 22 && s[1] == 3 && U16(s[3..5]) <= 16384 && U16(s[3..5]) <= |s| - 5
    ensures
      var n := U16(s[3..5]);
      Record(Fragment(s[2], s[5..5 + n])) == s[..5 + n] && s == s[..5 + n] + s[5 + n..]
  {
    U16Inverse(s[3..5]);
    assert s[..5] == [22, 3, s[2]] + s[3..5];
  }

  lemma {:induction false} AcceptedRecords(s: Bytes, raw: Bytes, sofar: Bytes, maxBytes: nat)
    returns (fragments: seq<Fragment>, body: Bytes, trailing: Bytes)
    requires ReadRecords(s, raw, sofar, maxBytes).result.Ok? && Judge(sofar, maxBytes).None?
    ensures |body| < 16777216 && Splits(fragments, sofar, Message(body))
    ensures s == Records(fragments) + trailing && ReadRecords(s, raw, sofar, maxBytes).result == ParseBody(body)
    decreases |s|
  {
    hide Judge, Splits, ParseBody, Record, Records, Message;
    var n := U16(s[3..5]);
    var f := Fragment(s[2], s[5..5 + n]);
    RecordAt(s);
    if Judge(sofar + f.payload, maxBytes).Some? {
      body := JudgedMessage(sofar, f.payload, maxBytes);
      SplitOne(f, sofar, Message(body));
      fragments, trailing := [f], s[5 + n..];
    } else {
      var rest;
      rest, body, trailing := AcceptedRecords(s[5 + n..], raw + s[..5] + s[5..5 + n], sofar + f.payload, maxBytes);
      SplitMore(f, rest, sofar, Message(body));
      SplitsFit(rest, sofar + f.payload, Message(body));
      fragments := [f] + rest;
      hide ReadRecords;
      assert s == Record(f) + (Records(rest) + trailing);
    }
  }

  /** The stream starts with handshake records, within the limit, that carry a hello, the last of them its end. */
  ghost predicate CarriesHello(input: Bytes, maxBytes: int, fragments: seq<Fragment>, h: Hello)
  {
    && HelloFits(h) && |EncodeBody(h)| < 16777216 && Splits(fragments, [], Message(EncodeBody(h)))
    && Records(fragments) <= input && |Records(fragments)| <= maxBytes
  }

  lemma AcceptedIsSplit(input: Bytes, maxBytes: int) returns (fragments: seq<Fragment>, body: Bytes)
    requires Read(input, maxBytes).result.Ok?
    ensures |body| < 16777216 && Splits(fragments, [], Message(body)) && RecordsFit(fragments)
    ensures Records(fragments) <= input && |Records(fragments)| <= maxBytes && Read(input, maxBytes).result == ParseBody(body)
  {
    hide Splits, ParseBody, ReadRecords;
    var trailing;
    fragments, body, trailing := AcceptedRecords(input, [], [], maxBytes);
    SplitsFit(fragments, [], Message(body));
    FragmentationIsInvisible(fragments, body, trailing, maxBytes);
  }

  /**
   * A probe succeeds if and only if the stream starts with records that carry a
   * well-formed hello within the limit, and then it reads what that hello carries.
   */
  lemma AcceptsExactlyStreams(input: Bytes, maxBytes: int, info: Info)
    ensures Read(input, maxBytes).result == Ok(info) <==>
      exists fragments, h :: CarriesHello(input, maxBytes, fragments, h) && InfoOf(h) == info
  {
    hide Read, ParseBody, EncodeBody, HelloFits, InfoOf, Splits;
    if Read(input, maxBytes).result == Ok(info) {
      var fragments, body := AcceptedIsSplit(input, maxBytes);
      var h := AcceptedBody(body);
      BodyRoundTrip(h);
      assert CarriesHello(input, maxBytes, fragments, h);
    }
    forall fragments, h | CarriesHello(input, maxBytes, fragments, h) && InfoOf(h) == info
      ensures Read(input, maxBytes).result == Ok(info)
    {
      SplitsFit(fragments, [], Message(EncodeBody(h)));
      var rest := input[|Records(fragments)|..];
      assert input == Records(fragments) + rest;
      HelloRoundTrip(h, fragments, rest, maxBytes);
    }
  }

  /** Why a record is refused, in numbers; what was read of it is kept. */
  lemma RecordRefused(s: Bytes, raw: Bytes, handshake: Bytes, maxBytes: nat)
    requires |raw| <= maxBytes
    ensures
      var p := ReadRecords(s, raw, handshake, maxBytes);
      if |raw| + 5 > maxBytes then p == Probe(raw, Err(TooLarge))
      else if |s| < 5 then p == Probe(raw + s, Err(Truncated))
      else
        var n := 256 * (s[3] as int) + s[4] as int;
        && (s[0] != 22 || s[1] != 3 || n > 16384 ==> p == Probe(raw + s[..5], Err(Malformed)))
        && (s[0] == 22 && s[1] == 3 && n <= 16384 && |raw| + 5 + n > maxBytes ==> p == Probe(raw + s[..5], Err(TooLarge)))
        && (s[0] == 22 && s[1] == 3 && n <= 16384 && |raw| + 5 + n <= maxBytes && |s| < 5 + n ==>
              p == Probe(raw + s, Err(Truncated)))
  {
    hide Judge;
    if |s| >= 5 {
      assert U16(s[3..5]) == 256 * (s[3] as int) + s[4] as int;
      assert raw + s[..5] + s[5..] == raw + s;
    }
  }

  /** Why a handshake message is refused before its body is parsed, and when more records are needed. */
  lemma MessageRefused(handshake: Bytes, maxBytes: nat)
    ensures
      var j := Judge(handshake, maxBytes);
      if |handshake| < 4 then j == None
      else if handshake[0] != 1 then j == Some(Err(Malformed))
      else
        var n := 4 + 65536 * (handshake[1] as int) + 256 * (handshake[2] as int) + handshake[3] as int;
        && (n > maxBytes ==> j == Some(Err(TooLarge)))
        && (|handshake| < n <= maxBytes ==> j == None)
  {
    hide ParseBody;
  }
}
