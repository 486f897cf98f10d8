/** The probe's own form: a cursor that advances, a reader that is consumed, and buffers that grow. */
module ClientHelloObject {
  import opened Bytes
  import opened Options
  import opened Streams
  import opened ServerName
  import opened ClientHello
  import opened ClientHelloReader

  class Cursor {
    const data: Bytes
    var offset: nat

    ghost predicate Valid()
      reads this
    {
      offset <= |data|
    }

    ghost function Rest(): Bytes
      reads this
      requires Valid()
    {
      data[offset..]
    }

    constructor (data: Bytes)
      ensures Valid() && Rest() == data
    {
      this.data := data;
      offset := 0;
    }

    method Remaining() returns (n: nat)
      requires Valid()
      ensures n == |Rest()|
    {
      n := |data| - offset;
    }

    method Take(length: int) returns (value: Bytes, ok: bool)
      requires Valid()
      modifies this
      ensures Valid() && ok == (0 <= length <= |old(Rest())|)
      ensures if ok then value == old(Rest())[..length] && Rest() == old(Rest())[length..]
              else value == [] && Rest() == old(Rest())
    {
      if length < 0 || length > |data| - offset {
        return [], false;
      }
      value := data[offset..offset + length];
      offset := offset + length;
      ok := true;
    }

    method UInt8() returns (n: nat, ok: bool)
      requires Valid()
      modifies this
      ensures Valid() && ok == (|old(Rest())| >= 1)
      ensures if ok then n == old(Rest())[0] && Rest() == old(Rest())[1..] else Rest() == old(Rest())
    {
      var value;
      value, ok := Take(1);
      n := if ok then value[0] else 0;
    }

    method UInt16() returns (n: nat, ok: bool)
      requires Valid()
      modifies this
      ensures Valid() && ok == (|old(Rest())| >= 2)
      ensures if ok then n == U16(old(Rest())[..2]) && Rest() == old(Rest())[2..] else Rest() == old(Rest())
    {
      var value;
      value, ok := Take(2);
      n := if ok then U16(value) else 0;
    }
  }

  method ParseServerNameExtension(extension: Bytes) returns (r: Result<Bytes>)
    ensures r == ParseServerName(extension)
  {
    hide ValidName, ParseNames;
    var cursor := new Cursor(extension);
    var listLength, ok := cursor.UInt16();
    if !ok {
      return Err(Malformed);
    }
    var remaining := cursor.Remaining();
    if listLength == 0 || listLength != remaining {
      return Err(Malformed);
    }
    var found: Option<Bytes> := None;
    while remaining > 0
      invariant cursor.Valid() && remaining == |cursor.Rest()|
      invariant ParseNames(cursor.Rest(), found) == ParseServerName(extension)
      decreases remaining
    {
      ghost var s := cursor.Rest();
      NamesStep(s, found);
      var nameType, name;
      nameType, name, ok := TakeName(cursor);
      if !ok {
        return Err(Malformed);
      }
      remaining := cursor.Remaining();
      if nameType != HOST_NAME {
        continue;
      }
      if found.Some? {
        return Err(Malformed);
      }
      var valid := ValidateServerName(name);
      if !valid {
        return Err(Malformed);
      }
      found := Some(name);
    }
    NamesEnd(found);
    r := Ok(if found.Some? then found.value else []);
  }

  lemma NamesEnd(found: Option<Bytes>)
    ensures ParseNames([], found) == Ok(if found.Some? then found.value else [])
  {
  }

  /** One entry of a server name list: a type, a length and that many bytes. */
  method TakeName(cursor: Cursor) returns (kind: nat, name: Bytes, ok: bool)
    requires cursor.Valid()
    modifies cursor
    ensures cursor.Valid()
    ensures var s := old(cursor.Rest());
      && ok == (|s| >= 3 && 0 < U16(s[1..3]) <= |s| - 3)
      && (ok ==> kind == s[0] && name == s[3..3 + U16(s[1..3])] && cursor.Rest() == s[3 + U16(s[1..3])..])
  {
    ghost var s := cursor.Rest();
    var length;
    name := [];
    kind, ok := cursor.UInt8();
    length, ok := cursor.UInt16();
    if !ok || length == 0 {
      return 0, [], false;
    }
    assert s[1..][..2] == s[1..3] && s[1..][2..] == s[3..];
    name, ok := cursor.Take(length);
    assert ok ==> s[3..][..length] == s[3..3 + length] && s[3..][length..] == s[3 + length..];
  }

  lemma NamesStep(s: Bytes, found: Option<Bytes>)
    requires |s| > 0
    ensures ParseNames(s, found) ==
      if |s| < 3 then Err(Malformed)
      else
        var n := U16(s[1..3]);
        if n == 0 || n > |s| - 3 then Err(Malformed)
        else if s[0] != HOST_NAME then ParseNames(s[3 + n..], found)
        else if found.Some? || !ValidName(s[3..3 + n]) then Err(Malformed)
        else ParseNames(s[3 + n..], Some(s[3..3 + n]))
  {
  }

  method ParseAlpnExtension(extension: Bytes) returns (r: Result<seq<Bytes>>)
    ensures r == ParseAlpn(extension)
  {
    hide ParseProtocols;
    var cursor := new Cursor(extension);
    var listLength, ok := cursor.UInt16();
    if !ok {
      return Err(Malformed);
    }
    var remaining := cursor.Remaining();
    if listLength == 0 || listLength != remaining {
      return Err(Malformed);
    }
    var protocols: seq<Bytes> := [];
    while remaining > 0
      invariant cursor.Valid() && remaining == |cursor.Rest()|
      invariant ParseProtocols(cursor.Rest(), protocols) == ParseAlpn(extension)
      decreases remaining
    {
      ProtocolsStep(cursor.Rest(), protocols);
      ghost var s := cursor.Rest();
      var length, protocol;
      length, ok := cursor.UInt8();
      if |protocols| >= MAX_PROTOCOLS {
        return Err(TooLarge);
      }
      if length == 0 {
        return Err(Malformed);
      }
      protocol, ok := cursor.Take(length);
      if !ok {
        return Err(Malformed);
      }
      assert protocol == s[1..1 + length] && cursor.Rest() == s[1 + length..];
      protocols := protocols + [protocol];
      remaining := cursor.Remaining();
    }
    ProtocolsEnd(protocols);
    r := Ok(protocols);
  }

  lemma ProtocolsStep(s: Bytes, found: seq<Bytes>)
    requires |s| > 0
    ensures ParseProtocols(s, found) ==
      if |found| >= MAX_PROTOCOLS then Err(TooLarge)
      else if s[0] == 0 || s[0] > |s| - 1 then Err(Malformed)
      else ParseProtocols(s[1 + s[0]..], found + [s[1..1 + s[0]]])
  {
  }

  lemma ProtocolsEnd(found: seq<Bytes>)
    ensures ParseProtocols([], found) == Ok(found)
  {
  }

  method ParseExtensionList(extensions: Bytes) returns (r: Result<Info>)
    ensures r == ParseExtensions(extensions, {}, 0, NOTHING)
  {
    hide Absorb, ParseExtensions;
    var cursor := new Cursor(extensions);
    var seen: set<nat>, info, count := {}, NOTHING, 0;
    var remaining := cursor.Remaining();
    while remaining > 0
      invariant cursor.Valid() && remaining == |cursor.Rest()|
      invariant ParseExtensions(cursor.Rest(), seen, count, info) == ParseExtensions(extensions, {}, 0, NOTHING)
      decreases remaining
    {
      ghost var s := cursor.Rest();
      ExtensionsStep(s, seen, count, info);
      var kind, length, extension, ok;
      kind, length, ok := TakeExtensionHeader(cursor);
      if !ok {
        return Err(Malformed);
      }
      count := count + 1;
      if count > MAX_EXTENSIONS {
        return Err(TooLarge);
      }
      extension, ok := cursor.Take(length);
      if !ok {
        return Err(Malformed);
      }
      assert extension == s[4..4 + length] && cursor.Rest() == s[4 + length..];
      if kind in seen {
        return Err(Malformed);
      }
      seen := seen + {kind};
      var next := AbsorbExtension(kind, extension, info);
      if next.Err? {
        return next;
      }
      info := next.value;
      remaining := cursor.Remaining();
    }
    ExtensionsEnd(seen, count, info);
    r := Ok(info);
  }

  lemma ExtensionsEnd(seen: set<nat>, count: nat, info: Info)
    ensures ParseExtensions([], seen, count, info) == Ok(info)
  {
  }

  lemma ExtensionsStep(s: Bytes, seen: set<nat>, count: nat, info: Info)
    requires |s| > 0
    ensures ParseExtensions(s, seen, count, info) ==
      if |s| < 4 then Err(Malformed)
      else if count + 1 > MAX_EXTENSIONS then Err(TooLarge)
      else
        var kind, n := U16(s[..2]), U16(s[2..4]);
        if n > |s| - 4 || kind in seen then Err(Malformed)
        else
          match Absorb(kind, s[4..4 + n], info)
          case Err(e) => Err(e)
          case Ok(next) => ParseExtensions(s[4 + n..], seen + {kind}, count + 1, next)
  {
  }

  method TakeExtensionHeader(cursor: Cursor) returns (kind: nat, length: nat, ok: bool)
    requires cursor.Valid()
    modifies cursor
    ensures cursor.Valid()
    ensures var s := old(cursor.Rest());
      && ok == (|s| >= 4)
      && (ok ==> kind == U16(s[..2]) && length == U16(s[2..4]) && cursor.Rest() == s[4..])
  {
    ghost var s := cursor.Rest();
    length := 0;
    kind, ok := cursor.UInt16();
    if !ok {
      return;
    }
    length, ok := cursor.UInt16();
    assert ok ==> s[2..][..2] == s[2..4] && s[2..][2..] == s[4..];
  }

  method AbsorbExtension(kind: nat, extension: Bytes, info: Info) returns (r: Result<Info>)
    ensures r == Absorb(kind, extension, info)
  {
    hide ParseServerName, ParseAlpn;
    r := Ok(info);
    if kind == SERVER_NAME {
      var name := ParseServerNameExtension(extension);
      r := if name.Err? then Err(name.error) else Ok(info.(serverName := name.value));
    } else if kind == ALPN {
      var protocols := ParseAlpnExtension(extension);
      r := if protocols.Err? then Err(protocols.error) else Ok(info.(protocols := protocols.value));
    }
  }

  method ParseClientHelloBody(body: Bytes) returns (r: Result<Info>)
    ensures r == ParseBody(body)
  {
    hide ParseExtensions;
    var cursor := new Cursor(body);
    var value, n, ok;
    value, ok := cursor.Take(2);
    if !ok || value[0] != 3 {
      return Err(Malformed);
    }
    value, ok := cursor.Take(32);
    if !ok {
      return Err(Malformed);
    }
    ghost var session := cursor.Rest();
    assert session == body[34..];
    n, ok := cursor.UInt8();
    if !ok || n > 32 {
      return Err(Malformed);
    }
    value, ok := cursor.Take(n);
    if !ok {
      return Err(Malformed);
    }
    assert cursor.Rest() == session[1 + n..];
    r := ParseFromSuites(cursor);
  }

  method ParseFromSuites(cursor: Cursor) returns (r: Result<Info>)
    requires cursor.Valid()
    modifies cursor
    ensures r == ParseSuites(old(cursor.Rest()))
  {
    hide ParseCompression;
    ghost var suites := cursor.Rest();
    var value, n, ok;
    n, ok := cursor.UInt16();
    if !ok || n == 0 || n % 2 != 0 {
      return Err(Malformed);
    }
    value, ok := cursor.Take(n);
    if !ok {
      return Err(Malformed);
    }
    assert cursor.Rest() == suites[2 + n..];
    r := ParseFromCompression(cursor);
  }

  method ParseFromCompression(cursor: Cursor) returns (r: Result<Info>)
    requires cursor.Valid()
    modifies cursor
    ensures r == ParseCompression(old(cursor.Rest()))
  {
    hide ParseTail;
    ghost var compression := cursor.Rest();
    var value, n, ok;
    n, ok := cursor.UInt8();
    if !ok || n == 0 {
      return Err(Malformed);
    }
    value, ok := cursor.Take(n);
    if !ok {
      return Err(Malformed);
    }
    assert cursor.Rest() == compression[1 + n..];
    r := ParseFromTail(cursor);
  }

  method ParseFromTail(cursor: Cursor) returns (r: Result<Info>)
    requires cursor.Valid()
    modifies cursor
    ensures r == ParseTail(old(cursor.Rest()))
  {
    hide ParseExtensions;
    ghost var tail := cursor.Rest();
    var value, n, ok;
    var remaining := cursor.Remaining();
    if remaining == 0 {
      return Ok(NOTHING);
    }
    n, ok := cursor.UInt16();
    if !ok {
      return Err(Malformed);
    }
    remaining := cursor.Remaining();
    if n != remaining {
      return Err(Malformed);
    }
    value, ok := cursor.Take(n);
    assert value == tail[2..];
    r := ParseExtensionList(value);
  }

  // -------------------------------------------------------------- the reader

  /** Reads into the retained bytes, never beyond the limit. */
  method ReadBytes(r: Reader, n: nat, maxBytes: nat, raw: Bytes) returns (got: Bytes, kept: Bytes, err: Option<Error>)
    requires r.Valid() && |raw| <= maxBytes
    modifies r
    ensures r.Valid() && kept + r.Unread() == raw + old(r.Unread()) && |raw| <= |kept| <= maxBytes
    ensures n > maxBytes - |raw| ==> err == Some(TooLarge) && kept == raw && r.Deliverable() == old(r.Deliverable())
    ensures n <= maxBytes - |raw| ==>
      if n <= |old(r.Deliverable())| then
        err == None && got == old(r.Deliverable())[..n] && kept == raw + got && r.Deliverable() == old(r.Deliverable())[n..]
      else err == Some(Truncated) && kept == raw + old(r.Deliverable())
  {
    if n > maxBytes - |raw| {
      return [], raw, Some(TooLarge);
    }
    var ok;
    got, ok := r.ReadFull(n);
    kept := raw + got;
    assert kept + r.Unread() == raw + (got + r.Unread());
    err := if ok then None else Some(Truncated);
  }

  /** Reads one ClientHello; whatever the outcome, the retained bytes followed by the unread ones are the stream. */
  method ReadClientHello(r: Reader, maxBytes: int) returns (probe: Probe)
    requires r.Valid()
    modifies r
    ensures r.Valid()
    ensures probe == Read(old(r.Deliverable()), maxBytes)
    ensures probe.raw + r.Unread() == old(r.Unread())
    ensures |probe.raw| <= (if maxBytes <= 0 then 0 else maxBytes)
  {
    hide ReadRecords, Judge, Taken;
    if maxBytes <= 0 {
      return Probe([], Err(TooLarge));
    }
    ghost var input, before := r.Deliverable(), r.Unread();
    var raw, handshake: Bytes := [], [];
    assert [] + before == before;
    while true
      invariant r.Valid() && |raw| <= maxBytes
      invariant raw + r.Unread() == before
      invariant ReadRecords(r.Deliverable(), raw, handshake, maxBytes) == Read(input, maxBytes)
      decreases |r.Deliverable()|
    {
      ghost var s := r.Deliverable();
      RecordsStep(s, raw, handshake, maxBytes);
      var payload, err;
      payload, raw, err := ReadRecord(r, maxBytes, raw);
      if err.Some? {
        return Probe(raw, Err(err.value));
      }
      handshake := handshake + payload;
      var answer := JudgeHandshake(handshake, maxBytes);
      if answer.Some? {
        return Probe(raw, answer.value);
      }
    }
  }

  /** What reading one record leaves: the bytes retained and the reason it failed, if it did. */
  function Taken(s: Bytes, raw: Bytes, maxBytes: nat): (Bytes, Option<Error>)
  {
    if RECORD_HEADER > maxBytes - |raw| then (raw, Some(TooLarge))
    else if |s| < RECORD_HEADER then (raw + s, Some(Truncated))
    else
      var withHeader := raw + s[..5];
      var n := U16(s[3..5]);
      if s[0] != HANDSHAKE_RECORD || s[1] != 3 || n > MAX_RECORD then (withHeader, Some(Malformed))
      else if n > maxBytes - |withHeader| then (withHeader, Some(TooLarge))
      else if |s| - 5 < n then (withHeader + s[5..], Some(Truncated))
      else (withHeader + s[5..5 + n], None)
  }

  method ReadRecord(r: Reader, maxBytes: nat, raw: Bytes) returns (payload: Bytes, kept: Bytes, err: Option<Error>)
    requires r.Valid() && |raw| <= maxBytes
    modifies r
    ensures r.Valid() && kept + r.Unread() == raw + old(r.Unread()) && |kept| <= maxBytes
    ensures (kept, err) == Taken(old(r.Deliverable()), raw, maxBytes)
    ensures err.None? ==>
      var s := old(r.Deliverable());
      var n := U16(s[3..5]);
      payload == s[5..5 + n] && r.Deliverable() == s[5 + n..]
  {
    ghost var s := r.Deliverable();
    var header;
    payload := [];
    header, kept, err := ReadBytes(r, RECORD_HEADER, maxBytes, raw);
    if err.Some? {
      return;
    }
    assert header[3..5] == s[3..5];
    if header[0] != HANDSHAKE_RECORD || header[1] != 3 {
      err := Some(Malformed);
      return;
    }
    var length := U16(header[3..5]);
    if length > MAX_RECORD {
      err := Some(Malformed);
      return;
    }
    if length > maxBytes - |kept| {
      err := Some(TooLarge);
      return;
    }
    payload, kept, err := ReadBytes(r, length, maxBytes, kept);
    assert err.None? ==> payload == s[5..5 + length] && r.Deliverable() == s[5 + length..];
  }

  method JudgeHandshake(handshake: Bytes, maxBytes: nat) returns (answer: Option<Result<Info>>)
    ensures answer == Judge(handshake, maxBytes)
  {
    hide ParseBody;
    if |handshake| < HANDSHAKE_HEADER {
      return None;
    }
    if handshake[0] != CLIENT_HELLO {
      return Some(Err(Malformed));
    }
    var total := HANDSHAKE_HEADER + U24(handshake[1..4]);
    if total > maxBytes {
      return Some(Err(TooLarge));
    }
    if |handshake| < total {
      return None;
    }
    var result := ParseClientHelloBody(handshake[HANDSHAKE_HEADER..total]);
    answer := Some(result);
  }

  lemma RecordsStep(s: Bytes, raw: Bytes, handshake: Bytes, maxBytes: nat)
    ensures var (kept, err) := Taken(s, raw, maxBytes);
      if err.Some? then ReadRecords(s, raw, handshake, maxBytes) == Probe(kept, Err(err.value))
      else
        && |s| >= 5 && |s| - 5 >= U16(s[3..5])
        && var n := U16(s[3..5]);
           var next := handshake + s[5..5 + n];
           match Judge(next, maxBytes)
           case Some(answer) => ReadRecords(s, raw, handshake, maxBytes) == Probe(kept, answer)
           case None => ReadRecords(s, raw, handshake, maxBytes) == ReadRecords(s[5 + n..], kept, next, maxBytes)
  {
    hide Judge;
  }
}
