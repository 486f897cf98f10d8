/** PROXY headers read byte by byte from a stream, and written into a buffer. */
module ProxyProtocolObject {
  import opened Bytes
  import opened Options
  import opened Streams
  import opened Splitting
  import opened ProxyProtocol
  import opened ProxyProtocolLaws

  method ValidateTlvs(payload: Bytes) returns (ok: bool)
    ensures ok == ValidTlvs(payload)
  {
    var rest := payload;
    while |rest| > 0
      invariant ValidTlvs(rest) == ValidTlvs(payload)
      decreases |rest|
    {
      if |rest| < 3 {
        return false;
      }
      var length := U16(rest[1..3]);
      if length > |rest| - 3 {
        return false;
      }
      rest := rest[3 + length..];
    }
    ok := true;
  }

  method ReadProxyProtocolV1(r: Reader, text: Text) returns (answer: Answer)
    requires r.Valid()
    modifies r
    ensures r.Valid() && (answer, r.Deliverable()) == ReadLine(text, old(r.Deliverable()), 0)
  {
    hide ParseBody, ReadLine, EndsLine;
    ghost var s, before := r.Deliverable(), r.Unread();
    var read: Bytes := [];
    while |SIG1| + |read| < V1_MAX
      invariant r.Valid() && |read| <= |s| && read == s[..|read|] && r.Deliverable() == s[|read|..]
      invariant read + r.Unread() == before
      invariant ReadLine(text, s, |read|) == ReadLine(text, s, 0)
      decreases V1_MAX - |read|
    {
      LineStep(text, s, |read|);
      var next, ok := TakeByte(r, read, s, before);
      if !ok {
        return Failed(Truncated);
      }
      LineByte(text, s, read, next);
      read := read + [next];
      if EndsLine(read) {
        return ParseBody(text, LineBody(read));
      }
    }
    LineStep(text, s, |read|);
    answer := Failed(TooLarge);
  }

  /** A line without its final CR LF. */
  function LineBody(line: Bytes): Bytes
  {
    if EndsLine(line) then line[..|line| - 2] else line
  }

  /** What one more byte means for the line, in terms of the bytes read so far. */
  lemma LineByte(text: Text, s: Bytes, read: Bytes, next: byte)
    requires |read| < |s| && read == s[..|read|] && next == s[|read|] && |SIG1| + |read| < V1_MAX
    ensures ReadLine(text, s, |read|) ==
      if EndsLine(read + [next]) then (ParseBody(text, LineBody(read + [next])), s[|read| + 1..])
      else ReadLine(text, s, |read| + 1)
  {
    hide ParseBody;
    var n := |read|;
    assert s[..n + 1] == read + [next];
    LineStep(text, s, n);
    hide ReadLine;
    if EndsLine(read + [next]) {
      assert s[..n - 1] == LineBody(read + [next]);
    }
  }

  lemma LineStep(text: Text, s: Bytes, n: nat)
    requires n <= |s|
    ensures ReadLine(text, s, n) ==
      if |SIG1| + n >= V1_MAX then (Failed(TooLarge), s[n..])
      else if n == |s| then (Failed(Truncated), [])
      else if EndsLine(s[..n + 1]) then (ParseBody(text, s[..n - 1]), s[n + 1..])
      else ReadLine(text, s, n + 1)
  {
    hide ParseBody;
  }

  method ParsePayloadV2(command: nat, family: byte, payload: Bytes) returns (answer: Answer)
    ensures answer == ParsePayload(command, family, payload)
  {
    hide ValidTlvs;
    if command == 0 {
      return Found(Header(Two, Local, NOWHERE, NOWHERE));
    }
    var length := AddressLength(family);
    if length.None? || |payload| < length.value {
      return Failed(Malformed);
    }
    var ok := ValidateTlvs(payload[length.value..]);
    answer := if ok then Found(ParseAddresses(family, payload)) else Failed(Malformed);
  }

  lemma FixedPart(s: Bytes)
    requires |s| >= 4
    ensures s[..4][0] == s[0] && s[..4][1] == s[1] && s[..4][2..4] == s[2..4]
  {
  }

  lemma PayloadPart(s: Bytes, n: nat)
    requires |s| - 4 >= n
    ensures s[4..][..n] == s[4..4 + n] && s[4..][n..] == s[4 + n..]
  {
  }

  method ReadProxyProtocolV2(r: Reader) returns (answer: Answer)
    requires r.Valid()
    modifies r
    ensures r.Valid() && (answer, r.Deliverable()) == ReadV2(old(r.Deliverable()))
  {
    hide ParsePayload;
    ghost var s := r.Deliverable();
    var fixed, ok := r.ReadFull(4);
    if !ok {
      return Failed(Truncated);
    }
    FixedPart(s);
    if fixed[0] / 16 != 2 || fixed[0] % 16 > 1 {
      return Failed(Malformed);
    }
    var length := U16(fixed[2..4]);
    if length > V2_MAX_PAYLOAD {
      return Failed(TooLarge);
    }
    var payload;
    payload, ok := r.ReadFull(length);
    if !ok {
      return Failed(Truncated);
    }
    PayloadPart(s, length);
    answer := ParsePayloadV2(fixed[0] % 16, fixed[1], payload);
  }

  /** Detection reads byte by byte while the bytes read still start a signature. */
  method ReadProxyProtocolHeader(r: Reader, text: Text) returns (answer: Answer)
    requires r.Valid()
    modifies r
    ensures r.Valid()
    ensures (answer, r.Deliverable()) == Read(text, old(r.Deliverable()), r.readable == |r.data|)
    ensures answer.Replay? ==> answer.bytes + r.Unread() == old(r.Unread())
  {
    hide Detect, ReadLine, ReadV2, Read, Starts;
    ghost var s, before, ended := r.Deliverable(), r.Unread(), r.readable == |r.data|;
    var prefix: Bytes := [];
    var v1Candidate, v2Candidate := true, true;
    DetectStarts(text, s, ended);
    assert r.Deliverable() == s[0..] && [] + before == before;
    while v1Candidate || v2Candidate
      invariant r.Valid() && |prefix| <= |s| && prefix == s[..|prefix|] && r.Deliverable() == s[|prefix|..]
      invariant prefix + r.Unread() == before
      invariant v1Candidate == Starts(prefix, SIG1) && v2Candidate == Starts(prefix, SIG2)
      invariant v1Candidate ==> |prefix| < |SIG1|
      invariant v2Candidate ==> |prefix| < |SIG2|
      invariant Read(text, s, ended) ==
        if v1Candidate || v2Candidate then Detect(text, s, |prefix|, ended) else (Replay(prefix), r.Deliverable())
      decreases |s| - |prefix|
    {
      DetectAtEnd(text, s, |prefix|, ended);
      var next, ok := TakeByte(r, prefix, s, before);
      if !ok {
        return Failed(if |prefix| == 0 && r.readable == |r.data| then Ended else Truncated);
      }
      var index := |prefix|;
      DetectByte(text, s, prefix, next, ended);
      prefix := prefix + [next];
      v1Candidate := v1Candidate && index < |SIG1| && next == SIG1[index];
      v2Candidate := v2Candidate && index < |SIG2| && next == SIG2[index];
      if v1Candidate && |prefix| == |SIG1| {
        LineNeverReplays(text, r.Deliverable(), 0);
        answer := ReadProxyProtocolV1(r, text);
        return;
      }
      if v2Candidate && |prefix| == |SIG2| {
        V2NeverReplays(r.Deliverable());
        answer := ReadProxyProtocolV2(r);
        return;
      }
    }
    answer := Replay(prefix);
  }

  lemma DetectStarts(text: Text, s: Bytes, ended: bool)
    ensures Read(text, s, ended) == Detect(text, s, 0, ended) && Starts([], SIG1) && Starts([], SIG2)
  {
  }

  predicate Starts(prefix: Bytes, signature: Bytes)
  {
    prefix <= signature
  }

  lemma DetectAtEnd(text: Text, s: Bytes, n: nat, ended: bool)
    requires n <= |s|
    ensures n == |s| ==> Detect(text, s, n, ended) == (Failed(if n == 0 && ended then Ended else Truncated), [])
  {
  }

  /** What one more byte means for detection, in terms of the signatures it may still start. */
  lemma DetectByte(text: Text, s: Bytes, prefix: Bytes, next: byte, ended: bool)
    requires |prefix| < |s| && prefix == s[..|prefix|] && next == s[|prefix|]
    ensures var n := |prefix|;
      var v1 := Starts(prefix, SIG1) && n < |SIG1| && next == SIG1[n];
      var v2 := Starts(prefix, SIG2) && n < |SIG2| && next == SIG2[n];
      && v1 == Starts(prefix + [next], SIG1) && v2 == Starts(prefix + [next], SIG2)
      && Detect(text, s, n, ended) ==
         if v1 && n + 1 == |SIG1| then ReadLine(text, s[n + 1..], 0)
         else if v2 && n + 1 == |SIG2| then ReadV2(s[n + 1..])
         else if v1 || v2 then Detect(text, s, n + 1, ended)
         else (Replay(prefix + [next]), s[n + 1..])
  {
    hide ReadLine, ReadV2;
    var n := |prefix|;
    assert s[..n + 1] == prefix + [next];
    Longer(prefix, next, SIG1);
    Longer(prefix, next, SIG2);
    DetectStep(text, s, n, ended);
    hide Detect;
  }

  method TakeByte(r: Reader, prefix: Bytes, ghost s: Bytes, ghost before: Bytes) returns (next: byte, ok: bool)
    requires r.Valid() && |prefix| <= |s| && prefix == s[..|prefix|] && r.Deliverable() == s[|prefix|..]
    requires prefix + r.Unread() == before
    modifies r
    ensures r.Valid() && ok == (|prefix| < |s|)
    ensures ok ==> next == s[|prefix|] && prefix + [next] == s[..|prefix| + 1] && r.Deliverable() == s[|prefix| + 1..]
    ensures ok ==> prefix + [next] + r.Unread() == before
    ensures !ok ==> r.Deliverable() == []
  {
    var got;
    got, ok := r.ReadFull(1);
    next := if ok then got[0] else 0;
    if ok {
      assert got == [next];
      assert prefix + [next] + r.Unread() == prefix + ([next] + r.Unread());
    }
  }

  lemma Longer(p: Bytes, b: byte, sig: Bytes)
    ensures p + [b] <= sig <==> p <= sig && |p| < |sig| && b == sig[|p|]
  {
    if p + [b] <= sig {
      assert (p + [b])[|p|] == b;
      assert forall i :: 0 <= i < |p| ==> p[i] == (p + [b])[i];
    }
  }

  lemma DetectStep(text: Text, s: Bytes, n: nat, ended: bool)
    requires n <= |s|
    ensures Detect(text, s, n, ended) ==
      if n == |s| then (Failed(if n == 0 && ended then Ended else Truncated), [])
      else
        var prefix := s[..n + 1];
        if prefix == SIG1 then ReadLine(text, s[n + 1..], 0)
        else if prefix == SIG2 then ReadV2(s[n + 1..])
        else if prefix <= SIG1 || prefix <= SIG2 then Detect(text, s, n + 1, ended)
        else (Replay(prefix), s[n + 1..])
  {
  }

  /** The canonical encoding, appended piece by piece. */
  method WriteProxyProtocolHeader(text: Text, h: Header) returns (written: Option<Bytes>)
    requires WellFormed(h.source) && WellFormed(h.destination)
    ensures written == Write(text, h)
  {
    hide Join, PrintNumber, Mapped;
    if h.version == One {
      if h.command == Local {
        return Some(SIG1 + UNKNOWN + [CR, LF]);
      }
      var family := Family(h.source, h.destination);
      if family.None? {
        return None;
      }
      var line := SIG1 + Join(Fields(text, family.value, h), SPACE) + [CR, LF];
      return if |line| > V1_MAX then None else Some(line);
    }
    var encoded := SIG2;
    if h.command == Local {
      return Some(encoded + [0x20, 0, 0, 0]);
    }
    var family := Family(h.source, h.destination);
    if family.None? {
      return None;
    }
    if family.value == TCP4 {
      encoded := encoded + [0x21, 0x11] + Put16(12);
    } else {
      encoded := encoded + [0x21, 0x21] + Put16(36);
    }
    ghost var head := encoded;
    encoded := encoded + h.source.addr.bytes;
    encoded := encoded + h.destination.addr.bytes;
    encoded := encoded + Put16(h.source.port);
    encoded := encoded + Put16(h.destination.port);
    assert encoded == head + EncodeAddresses(h);
    written := Some(encoded);
  }
}
