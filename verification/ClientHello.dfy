/**
 Server-name extraction from a TLS ClientHello (talos-edge-router/internal/sniproxy/peek.go).
 `Extract` consumes its input front to back by slicing; `ExtractSNI` walks the
 same bytes with a cursor. Printers for records, extensions and name lists
 follow sections 5.1 and 4.1.2 of RFC 8446, section 7.4.1.2 of RFC 5246 and
 section 3 of RFC 6066.
 */
module ClientHello {

  type byte = x: int | 0 <= x < 256
  type bytes = seq<byte>

  const HANDSHAKE: byte := 0x16
  const CLIENT_HELLO: byte := 0x01
  const SERVER_NAME: nat := 0
  const HOST_NAME: byte := 0

  datatype Error =
    | RecordHeaderShort | NotHandshake(found: byte) | RecordIncomplete
    | HandshakeHeaderShort | NotClientHello(found: byte) | BodyShort
    | CipherSuitesTruncated | CompressionTruncated | NoExtensions | ExtensionsTooLong
    | NoServerName | ServerNameShort | NameListTruncated | NoHostName

  datatype Result = Ok(name: bytes) | Err(error: Error)

  /** Big-endian 16-bit field at an offset. */
  function U16(b: bytes, at: nat): (n: nat)
    requires at + 2 <= |b|
    ensures n < 65536
  {
    256 * (b[at] as nat) + b[at + 1]
  }

  function PutU16(n: nat): (b: bytes)
    requires n < 65536
    ensures |b| == 2 && U16(b, 0) == n
  {
    [n / 256, n % 256]
  }

  // ---------------------------------------------------------------- parsing by slices

  function Extract(data: bytes): Result {
    if |data| < 5 then Err(RecordHeaderShort)
    else if data[0] != HANDSHAKE then Err(NotHandshake(data[0]))
    else if |data| < 5 + U16(data, 3) then Err(RecordIncomplete)
    else Handshake(data[5..5 + U16(data, 3)])
  }

  function Handshake(payload: bytes): Result {
    if |payload| < 4 then Err(HandshakeHeaderShort)
    else if payload[0] != CLIENT_HELLO then Err(NotClientHello(payload[0]))
    else if |payload| < 4 + 35 then Err(BodyShort)
    else AfterRandom(payload[4 + 34..])
  }

  function AfterRandom(b: bytes): Result
    requires |b| >= 1
  {
    if 1 + b[0] + 2 > |b| then Err(CipherSuitesTruncated) else AfterSession(b[1 + b[0]..])
  }

  function AfterSession(b: bytes): Result
    requires |b| >= 2
  {
    if 2 + U16(b, 0) + 1 > |b| then Err(CompressionTruncated) else AfterCiphers(b[2 + U16(b, 0)..])
  }

  function AfterCiphers(b: bytes): Result
    requires |b| >= 1
  {
    if 1 + b[0] + 2 > |b| then Err(NoExtensions) else AfterCompression(b[1 + b[0]..])
  }

  function AfterCompression(b: bytes): Result
    requires |b| >= 2
  {
    if 2 + U16(b, 0) > |b| then Err(ExtensionsTooLong) else FindServerName(b[2..2 + U16(b, 0)])
  }

  function FindServerName(b: bytes): Result {
    if |b| < 4 || 4 + U16(b, 2) > |b| then Err(NoServerName)
    else if U16(b, 0) == SERVER_NAME then NameList(b[4..4 + U16(b, 2)])
    else FindServerName(b[4 + U16(b, 2)..])
  }

  function NameList(d: bytes): Result {
    if |d| < 2 then Err(ServerNameShort)
    else if |d| < 2 + U16(d, 0) then Err(NameListTruncated)
    else FindHostName(d[2..2 + U16(d, 0)])
  }

  function FindHostName(b: bytes): Result {
    if |b| < 3 || 3 + U16(b, 1) > |b| then Err(NoHostName)
    else if b[0] == HOST_NAME then Ok(b[3..3 + U16(b, 1)])
    else FindHostName(b[3 + U16(b, 1)..])
  }

  // ---------------------------------------------------------------- parsing by cursor

  /** The parser as written: one cursor, no slicing of the rest, never out of range. */
  method ExtractSNI(data: bytes) returns (r: Result)
    ensures r == Extract(data)
  {
    if |data| < 5 {
      return Err(RecordHeaderShort);
    }
    if data[0] != HANDSHAKE {
      return Err(NotHandshake(data[0]));
    }
    var recordLen := U16(data, 3);
    if |data| < 5 + recordLen {
      return Err(RecordIncomplete);
    }
    var payload := data[5..5 + recordLen];
    if |payload| < 4 {
      return Err(HandshakeHeaderShort);
    }
    if payload[0] != CLIENT_HELLO {
      return Err(NotClientHello(payload[0]));
    }
    var body := payload[4..];
    if |body| < 35 {
      return Err(BodyShort);
    }
    var pos := 2 + 32;
    assert payload[4 + 34..] == body[pos..];
    r := ExtractFromBody(body, pos);
  }

  lemma DropDrop(b: bytes, i: nat, j: nat)
    requires i + j <= |b|
    ensures b[i..][j..] == b[i + j..]
    ensures j < |b| - i ==> b[i..][j] == b[i + j]
    ensures j + 2 <= |b| - i ==> U16(b[i..], j) == U16(b, i + j)
  {
  }

  method ExtractFromBody(body: bytes, start: nat) returns (r: Result)
    requires start < |body|
    ensures r == AfterRandom(body[start..])
  {
    var pos := start;
    ghost var session := body[pos..];
    var sessionIDLen: nat := body[pos];
    pos := pos + 1 + sessionIDLen;
    if pos + 2 > |body| {
      return Err(CipherSuitesTruncated);
    }
    DropDrop(body, start, 1 + sessionIDLen);
    DropDrop(body, pos, 0);
    assert AfterRandom(session) == AfterSession(body[pos..]);
    r := ExtractFromCiphers(body, pos);
  }

  method ExtractFromCiphers(body: bytes, start: nat) returns (r: Result)
    requires start + 2 <= |body|
    ensures r == AfterSession(body[start..])
  {
    var pos := start;
    DropDrop(body, pos, 0);
    var cipherSuitesLen := U16(body, pos);
    pos := pos + 2 + cipherSuitesLen;
    if pos + 1 > |body| {
      return Err(CompressionTruncated);
    }
    DropDrop(body, start, 2 + cipherSuitesLen);
    DropDrop(body, pos, 0);
    assert AfterSession(body[start..]) == AfterCiphers(body[pos..]);
    r := ExtractFromCompression(body, pos);
  }

  method ExtractFromCompression(body: bytes, start: nat) returns (r: Result)
    requires start < |body|
    ensures r == AfterCiphers(body[start..])
  {
    var pos := start;
    var compressionLen: nat := body[pos];
    pos := pos + 1 + compressionLen;
    if pos + 2 > |body| {
      return Err(NoExtensions);
    }
    DropDrop(body, start, 1 + compressionLen);
    DropDrop(body, pos, 0);
    assert AfterCiphers(body[start..]) == AfterCompression(body[pos..]);
    var extLen := U16(body, pos);
    ghost var block := body[pos..];
    pos := pos + 2;
    var extEnd := pos + extLen;
    if extEnd > |body| {
      return Err(ExtensionsTooLong);
    }
    assert block[2..2 + extLen] == body[pos..extEnd];
    r := ScanExtensions(body, pos, extEnd);
  }

  lemma SliceSlice(b: bytes, lo: nat, hi: nat, i: nat, j: nat)
    requires lo <= hi <= |b| && i <= j <= hi - lo
    ensures b[lo..hi][i..j] == b[lo + i..lo + j]
    ensures b[lo..hi][i..] == b[lo + i..hi]
  {
    var s := b[lo..hi];
    assert forall k :: 0 <= k < |s| ==> s[k] == b[lo + k];
    assert s[i..j] == b[lo + i..lo + j];
    assert s[i..] == b[lo + i..hi];
  }

  lemma ScanStep(body: bytes, pos: nat, extEnd: nat)
    requires pos + 4 <= extEnd <= |body|
    ensures var next := pos + 4 + U16(body, pos + 2);
            FindServerName(body[pos..extEnd]) ==
            if next > extEnd then Err(NoServerName)
            else if U16(body, pos) == SERVER_NAME then NameList(body[pos + 4..next])
            else FindServerName(body[next..extEnd])
  {
    var b := body[pos..extEnd];
    assert U16(b, 0) == U16(body, pos) && U16(b, 2) == U16(body, pos + 2);
    var next := pos + 4 + U16(body, pos + 2);
    if next <= extEnd {
      SliceSlice(body, pos, extEnd, 4, next - pos);
      SliceSlice(body, pos, extEnd, next - pos, extEnd - pos);
    }
  }

  method ScanExtensions(body: bytes, start: nat, extEnd: nat) returns (r: Result)
    requires start <= extEnd <= |body|
    ensures r == FindServerName(body[start..extEnd])
  {
    var pos := start;
    while pos + 4 <= extEnd
      invariant start <= pos <= extEnd
      invariant FindServerName(body[start..extEnd]) == FindServerName(body[pos..extEnd])
    {
      ScanStep(body, pos, extEnd);
      var extType := U16(body, pos);
      var extDataLen := U16(body, pos + 2);
      pos := pos + 4;
      if pos + extDataLen > extEnd {
        return Err(NoServerName);
      }
      if extType == SERVER_NAME {
        r := ParseSNIExtension(body[pos..pos + extDataLen]);
        return;
      }
      pos := pos + extDataLen;
    }
    return Err(NoServerName);
  }

  lemma Within(data: bytes, from: nat, end: nat, i: nat, j: nat)
    requires from <= end <= |data| && i <= j <= end - from
    ensures data[from..end][i..j] == data[from + i..from + j]
  {
    var b := data[from..end];
    assert forall k :: i <= k < j ==> b[k] == data[from + k];
    assert forall k :: 0 <= k < j - i ==> b[i..j][k] == b[i + k] == data[from + i..from + j][k];
  }

  /** One entry of the name list, read in place. */
  lemma NextName(data: bytes, pos: nat, end: nat, n: nat)
    requires pos + 3 <= end <= |data| && n == U16(data, pos + 1)
    ensures pos + 3 + n > end ==> FindHostName(data[pos..end]) == Err(NoHostName)
    ensures pos + 3 + n <= end && data[pos] == HOST_NAME ==>
              FindHostName(data[pos..end]) == Ok(data[pos + 3..pos + 3 + n])
    ensures pos + 3 + n <= end && data[pos] != HOST_NAME ==>
              FindHostName(data[pos..end]) == FindHostName(data[pos + 3 + n..end])
  {
    var b := data[pos..end];
    assert b[0] == data[pos] && U16(b, 1) == n;
    if pos + 3 + n <= end {
      Within(data, pos, end, 3, 3 + n);
      Within(data, pos, end, 3 + n, |b|);
      assert b[3 + n..] == b[3 + n..|b|];
    }
  }

  method ParseSNIExtension(data: bytes) returns (r: Result)
    ensures r == NameList(data)
  {
    if |data| < 2 {
      return Err(ServerNameShort);
    }
    var listLen := U16(data, 0);
    if |data| < 2 + listLen {
      return Err(NameListTruncated);
    }
    var pos, end := 2, 2 + listLen;
    while pos + 3 <= end
      invariant 2 <= pos <= end
      invariant NameList(data) == FindHostName(data[pos..end])
    {
      var nameType := data[pos];
      var nameLen := U16(data, pos + 1);
      NextName(data, pos, end, nameLen);
      pos := pos + 3;
      if pos + nameLen > end {
        break;
      }
      if nameType == HOST_NAME {
        return Ok(data[pos..pos + nameLen]);
      }
      pos := pos + nameLen;
    }
    return Err(NoHostName);
  }
}
