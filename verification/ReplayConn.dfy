/**
 Peeking at a connection and replaying it (talos-edge-router/internal/sniproxy/peek.go).
 `Conn` is the client's byte stream cut into reads of any size; `PeekConn`
 hands the peeked bytes out again before it reads on.
 */
module ReplayConn {
  import opened ClientHello
  import opened Requests

  const MAX_CLIENT_HELLO := 4096

  datatype ReadError = HeaderUnread | RecordTooLarge(size: nat) | PayloadUnread | Unparsed(error: Error)
  datatype Outcome = Named(name: bytes) | Failed(reason: ReadError)

  lemma Adjoin(s: bytes, i: nat, j: nat, k: nat)
    requires i <= j <= k <= |s|
    ensures s[i..j] + s[j..k] == s[i..k]
  {
  }

  /** What a connection is good for that delivers all of these bytes, and then ends. */
  function Peeked(rest: bytes): Outcome {
    if |rest| < 5 then Failed(HeaderUnread)
    else if U16(rest, 3) > MAX_CLIENT_HELLO then Failed(RecordTooLarge(U16(rest, 3)))
    else if |rest| < 5 + U16(rest, 3) then Failed(PayloadUnread)
    else match Extract(rest[..5 + U16(rest, 3)])
         case Ok(name) => Named(name)
         case Err(error) => Failed(Unparsed(error))
  }

  /**
   A connection: `stream` is all the client will ever send, `at` how much was read. A
   `reliable` one fails only at the end of the stream.
   */
  class Conn {
    const reliable: bool
    const stream: bytes
    var at: nat

    predicate Valid()
      reads this
    {
      at <= |stream|
    }

    /** One read into `b[lo..hi]`: any chunk size, or a failure (end of stream included). */
    method Read(b: array<byte>, lo: nat, hi: nat) returns (n: nat, failed: bool)
      requires Valid() && lo <= hi <= b.Length
      modifies this`at, b
      ensures Valid() && n <= hi - lo && at == old(at) + n
      ensures b[lo..lo + n] == stream[old(at)..at]
      ensures forall i :: 0 <= i < b.Length && !(lo <= i < lo + n) ==> b[i] == old(b[i])
      ensures !failed && lo < hi ==> 0 < n
      ensures reliable && lo < hi && old(at) < |stream| ==> !failed
    {
      n :| 0 <= n <= hi - lo && n <= |stream| - at && (reliable && lo < hi && at < |stream| ==> 0 < n);
      var ok := Answered(reliable);
      failed := !ok || n == 0;
      CopyInto(b, lo, stream[at..at + n]);
      at := at + n;
    }

    /** `io.ReadFull`: fills the buffer or fails. */
    method ReadFull(b: array<byte>) returns (ok: bool)
      requires Valid()
      modifies this`at, b
      ensures Valid() && old(at) <= at
      ensures ok ==> at == old(at) + b.Length && b[..] == stream[old(at)..at]
      ensures reliable ==> (ok <==> b.Length <= |stream| - old(at))
    {
      var n := 0;
      while n < b.Length
        invariant Valid() && n <= b.Length && at == old(at) + n
        invariant b[..n] == stream[old(at)..at]
      {
        ghost var before, mid := b[..n], at;
        var k, failed := Read(b, n, b.Length);
        assert b[..n] == before;
        assert b[..n + k] == b[..n] + b[n..n + k];
        Adjoin(stream, old(at), mid, at);
        n := n + k;
        if failed && n < b.Length {
          return false;
        }
      }
      assert b[..] == b[..n];
      return true;
    }
  }

  /** `copy`: the bytes of `src` go to `b` from `lo` on, the rest of `b` stays. */
  method CopyInto(b: array<byte>, lo: nat, src: bytes)
    requires lo + |src| <= b.Length
    modifies b
    ensures b[lo..lo + |src|] == src
    ensures forall i :: 0 <= i < b.Length && !(lo <= i < lo + |src|) ==> b[i] == old(b[i])
  {
    for i := 0 to |src|
      invariant forall k :: 0 <= k < i ==> b[lo + k] == src[k]
      invariant forall k :: 0 <= k < b.Length && !(lo <= k < lo + i) ==> b[k] == old(b[k])
    {
      b[lo + i] := src[i];
    }
  }

  class PeekConn {
    const conn: Conn
    const buf: bytes
    var pos: nat
    ghost const start: nat
    ghost var delivered: bytes

    /** Everything delivered so far is a prefix of the stream from where peeking began. */
    ghost predicate Valid()
      reads this, conn
    {
      && conn.Valid() && pos <= |buf|
      && start + |buf| <= conn.at
      && buf == conn.stream[start..start + |buf|]
      && (pos < |buf| ==> conn.at == start + |buf|)
      && |delivered| == pos + (conn.at - (start + |buf|))
      && delivered == conn.stream[start..start + |delivered|]
    }

    constructor (conn: Conn, buf: bytes)
      requires conn.Valid() && |buf| <= conn.at && buf == conn.stream[conn.at - |buf|..conn.at]
      ensures Valid() && this.conn == conn && this.buf == buf && start == conn.at - |buf| && delivered == []
    {
      this.conn, this.buf, pos := conn, buf, 0;
      start, delivered := conn.at - |buf|, [];
    }

    method Read(b: array<byte>, lo: nat, hi: nat) returns (n: nat, failed: bool)
      requires Valid() && lo <= hi <= b.Length
      modifies this, conn`at, b
      ensures Valid() && n <= hi - lo
      ensures delivered == old(delivered) + b[lo..lo + n]
      ensures forall i :: 0 <= i < b.Length && !(lo <= i < lo + n) ==> b[i] == old(b[i])
      ensures !failed && lo < hi ==> 0 < n
      ensures conn.reliable && lo < hi && old(delivered) != conn.stream[start..] ==> !failed
    {
      if pos < |buf| {
        n := Replay(b, lo, hi);
        return n, false;
      }
      ghost var so := start + |delivered|;
      n, failed := conn.Read(b, lo, hi);
      Adjoin(conn.stream, start, so, so + n);
      delivered := delivered + b[lo..lo + n];
    }

    /** The peeked bytes first, as many as fit. */
    method Replay(b: array<byte>, lo: nat, hi: nat) returns (n: nat)
      requires Valid() && lo <= hi <= b.Length && pos < |buf|
      modifies this, b
      ensures Valid() && n <= hi - lo && (lo < hi ==> 0 < n)
      ensures delivered == old(delivered) + b[lo..lo + n]
      ensures forall i :: 0 <= i < b.Length && !(lo <= i < lo + n) ==> b[i] == old(b[i])
    {
      ghost var so := start + |delivered|;
      n := if |buf| - pos <= hi - lo then |buf| - pos else hi - lo;
      SliceSlice(conn.stream, start, start + |buf|, pos, pos + n);
      Adjoin(conn.stream, start, so, so + n);
      CopyInto(b, lo, buf[pos..pos + n]);
      delivered := delivered + b[lo..lo + n];
      pos := pos + n;
    }

    /**
     Any caller: reads with buffers of the given sizes until one fails. What it
     collects continues, byte for byte, what was delivered before.
     */
    method CopyOut(sizes: seq<nat>) returns (out: bytes)
      requires Valid()
      modifies this, conn`at
      ensures Valid() && delivered == old(delivered) + out
      ensures old(delivered) + out <= conn.stream[start..]
      ensures conn.reliable && 0 !in sizes ==> |out| >= |sizes| || delivered == conn.stream[start..]
    {
      out := [];
      for i := 0 to |sizes|
        invariant Valid() && delivered == old(delivered) + out
        invariant 0 !in sizes ==> |out| >= i
      {
        var b := new byte[sizes[i]];
        var n, failed := Read(b, 0, sizes[i]);
        out := out + b[0..n];
        if failed {
          return;
        }
      }
    }
  }

  /**
   Reads exactly one record and names the server it asks for. On success nothing
   of the stream is lost: the returned connection starts over where `conn` stood.
   */
  method ReadSNI(conn: Conn) returns (r: Outcome, replay: PeekConn?)
    requires conn.Valid()
    modifies conn`at
    ensures conn.Valid() && old(conn.at) <= conn.at
    ensures r.Named? <==> replay != null
    ensures replay != null ==>
              && fresh(replay) && replay.Valid() && replay.conn == conn
              && replay.start == old(conn.at) && replay.delivered == []
              && replay.buf == conn.stream[old(conn.at)..conn.at]
              && 5 <= |replay.buf| && |replay.buf| == 5 + U16(replay.buf, 3) <= 5 + MAX_CLIENT_HELLO
              && Extract(replay.buf) == Ok(r.name)
    ensures conn.reliable ==> r == Peeked(conn.stream[old(conn.at)..])
    ensures r.Failed? && r.reason.RecordTooLarge? ==>
              conn.at == old(conn.at) + 5 && r.reason.size == U16(conn.stream, old(conn.at) + 3) > MAX_CLIENT_HELLO
    ensures r.Failed? && r.reason.Unparsed? ==> Extract(conn.stream[old(conn.at)..conn.at]) == Err(r.reason.error)
  {
    replay := null;
    var header := new byte[5];
    var ok := conn.ReadFull(header);
    if !ok {
      return Failed(HeaderUnread), null;
    }
    var head := header[..];
    var recordLen := U16(head, 3);
    assert head[3] == conn.stream[old(conn.at) + 3] && head[4] == conn.stream[old(conn.at) + 4];
    if recordLen > MAX_CLIENT_HELLO {
      return Failed(RecordTooLarge(recordLen)), null;
    }
    var payload := new byte[recordLen];
    ok := conn.ReadFull(payload);
    if !ok {
      return Failed(PayloadUnread), null;
    }
    var buf := head + payload[..];
    Adjoin(conn.stream, old(conn.at), old(conn.at) + 5, conn.at);
    assert buf == conn.stream[old(conn.at)..][..5 + recordLen];
    var sni := ExtractSNI(buf);
    if sni.Err? {
      return Failed(Unparsed(sni.error)), null;
    }
    replay := new PeekConn(conn, buf);
    return Named(sni.name), replay;
  }
}
