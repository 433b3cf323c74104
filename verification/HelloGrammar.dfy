/**
 Printers for TLS ClientHello records, and the two directions that tie them to
 the parser: every printed hello parses to the name it carries, and every
 success of the parser is the printed form of a record that carries that name.
 */
module HelloGrammar {
  import opened Text
  import opened ClientHello

  datatype Entry = Entry(kind: byte, name: bytes)
  datatype Extension = Extension(kind: nat, data: bytes)

  /** The part of a record in front of the extensions. */
  datatype Frame = Frame(version: bytes, handshakeLength: bytes, fixed: bytes,
                         session: bytes, ciphers: bytes, compression: bytes)
  {
    predicate Wf() {
      && |version| == 2 && |handshakeLength| == 3 && |fixed| == 34
      && |session| < 256 && |ciphers| < 65536 && |compression| < 256
    }
  }

  function Vec8(x: bytes, rest: bytes): bytes
    requires |x| < 256
  {
    [|x|] + (x + rest)
  }

  function Vec16(x: bytes, rest: bytes): bytes
    requires |x| < 65536
  {
    PutU16(|x|) + (x + rest)
  }

  function Payload(f: Frame, rest: bytes): bytes
    requires f.Wf()
  {
    [CLIENT_HELLO] + f.handshakeLength + (f.fixed + Vec8(f.session, Vec16(f.ciphers, Vec8(f.compression, rest))))
  }

  /** A whole record, followed by whatever comes after it in the buffer. */
  function Record(f: Frame, rest: bytes, after: bytes): bytes
    requires f.Wf() && |Payload(f, rest)| < 65536
  {
    [HANDSHAKE] + f.version + Vec16(Payload(f, rest), after)
  }

  function PrintEntries(es: seq<Entry>): bytes
    requires forall e :: e in es ==> |e.name| < 65536
  {
    if es == [] then [] else [es[0].kind] + Vec16(es[0].name, PrintEntries(es[1..]))
  }

  function PrintExtensions(xs: seq<Extension>): bytes
    requires forall x :: x in xs ==> x.kind < 65536 && |x.data| < 65536
  {
    if xs == [] then [] else PutU16(xs[0].kind) + Vec16(xs[0].data, PrintExtensions(xs[1..]))
  }

  predicate NoHosts(es: seq<Entry>) {
    forall e :: e in es ==> e.kind != HOST_NAME && |e.name| < 65536
  }

  predicate NoServerNames(xs: seq<Extension>) {
    forall x :: x in xs ==> 0 < x.kind < 65536 && |x.data| < 65536
  }

  // ---------------------------------------------------------------- length-prefixed pieces

  lemma Regroup(a: bytes, b: bytes, c: bytes, d: bytes, e: bytes)
    ensures (a + (b + (c + d))) + e == a + (b + (c + (d + e)))
  {
  }

  lemma Vec8Parts(x: bytes, rest: bytes)
    requires |x| < 256
    ensures var b := Vec8(x, rest); b[0] == |x| && |b| == 1 + |x| + |rest| && b[1..1 + |x|] == x && b[1 + |x|..] == rest
  {
  }

  lemma Vec16Parts(x: bytes, rest: bytes)
    requires |x| < 65536
    ensures var b := Vec16(x, rest);
              |b| == 2 + |x| + |rest| && U16(b, 0) == |x| && b[2..2 + |x|] == x
              && b[2 + |x|..] == rest
  {
  }

  lemma Vec8Of(b: bytes)
    requires |b| > 0 && 1 + b[0] <= |b|
    ensures b == Vec8(b[1..1 + b[0]], b[1 + b[0]..])
  {
  }

  lemma Vec16Of(b: bytes)
    requires |b| >= 2 && 2 + U16(b, 0) <= |b|
    ensures b == Vec16(b[2..2 + U16(b, 0)], b[2 + U16(b, 0)..])
  {
  }

  // ---------------------------------------------------------------- the fixed part

  lemma Framed(head: bytes, payload: bytes, after: bytes)
    requires |head| == 3 && |payload| < 65536
    ensures var d := head + Vec16(payload, after);
            && |d| == 5 + |payload| + |after| && d[0] == head[0] && U16(d, 3) == |payload|
                  && d[5..5 + |payload|] == payload
  {
  }

  lemma HeaderParses(f: Frame, rest: bytes, after: bytes)
    requires f.Wf() && |Payload(f, rest)| < 65536
    ensures Extract(Record(f, rest, after)) == Handshake(Payload(f, rest))
  {
    Framed([HANDSHAKE] + f.version, Payload(f, rest), after);
  }

  lemma PayloadParses(f: Frame, rest: bytes)
    requires f.Wf()
    ensures Handshake(Payload(f, rest)) == AfterCiphers(Vec8(f.compression, rest))
  {
    var tail := Vec8(f.session, Vec16(f.ciphers, Vec8(f.compression, rest)));
    assert Payload(f, rest)[38..] == tail;
    Vec8Parts(f.session, Vec16(f.ciphers, Vec8(f.compression, rest)));
    Vec16Parts(f.ciphers, Vec8(f.compression, rest));
    Vec8Parts(f.compression, rest);
  }

  /** The bytes the parser looks at once the fixed part is skipped. */
  lemma RecordParses(f: Frame, rest: bytes, after: bytes)
    requires f.Wf() && |Payload(f, rest)| < 65536
    ensures Extract(Record(f, rest, after)) == AfterCiphers(Vec8(f.compression, rest))
  {
    HeaderParses(f, rest, after);
    PayloadParses(f, rest);
  }

  lemma HeaderOf(data: bytes)
    requires |data| >= 5 && data[0] == HANDSHAKE && |data| >= 5 + U16(data, 3)
    ensures data == [HANDSHAKE] + data[1..3] + Vec16(data[5..5 + U16(data, 3)], data[5 + U16(data, 3)..])
  {
  }

  lemma VectorsOf(b0: bytes) returns (session: bytes, ciphers: bytes, compression: bytes, block: bytes, slack: bytes)
    requires |b0| >= 1 && AfterRandom(b0).Ok?
    ensures |session| < 256 && |ciphers| < 65536 && |compression| < 256 && |block| < 65536
    ensures b0 == Vec8(session, Vec16(ciphers, Vec8(compression, Vec16(block, slack))))
    ensures AfterRandom(b0) == FindServerName(block)
  {
    var b1 := b0[1 + b0[0]..];
    var b2 := b1[2 + U16(b1, 0)..];
    var b3 := b2[1 + b2[0]..];
    session, ciphers, compression := b0[1..1 + b0[0]], b1[2..2 + U16(b1, 0)], b2[1..1 + b2[0]];
    block, slack := b3[2..2 + U16(b3, 0)], b3[2 + U16(b3, 0)..];
    Vec8Of(b0);
    Vec16Of(b1);
    Vec8Of(b2);
    Vec16Of(b3);
  }

  lemma PayloadOf(payload: bytes) returns (f: Frame, block: bytes, slack: bytes)
    requires Handshake(payload).Ok?
    ensures f.Wf() && |block| < 65536
    ensures payload == Payload(f, Vec16(block, slack))
    ensures Handshake(payload) == FindServerName(block)
  {
    var session, ciphers, compression;
    session, ciphers, compression, block, slack := VectorsOf(payload[38..]);
    f := Frame([0, 0], payload[1..4], payload[4..38], session, ciphers, compression);
    assert payload == [payload[0]] + payload[1..4] + (payload[4..38] + payload[38..]);
  }

  /** Every buffer the parser accepts is a printed record, cut at its extensions. */
  lemma RecordOf(data: bytes) returns (f: Frame, block: bytes, slack: bytes, after: bytes)
    requires Extract(data).Ok?
    ensures f.Wf() && |block| < 65536 && |Payload(f, Vec16(block, slack))| < 65536
    ensures data == Record(f, Vec16(block, slack), after)
    ensures Extract(data) == FindServerName(block)
  {
    after := data[5 + U16(data, 3)..];
    var g;
    g, block, slack := PayloadOf(data[5..5 + U16(data, 3)]);
    f := g.(version := data[1..3]);
    assert Payload(f, Vec16(block, slack)) == Payload(g, Vec16(block, slack));
    HeaderOf(data);
  }

  // ---------------------------------------------------------------- the variable part

  /** A name list that opens with complete non-host entries and then a host entry. */
  ghost predicate OpensWithHost(list: bytes, name: bytes) {
    exists es: seq<Entry>, rest: bytes ::
      && |name| < 65536
      && NoHosts(es)
      && list == PrintEntries(es) + ([HOST_NAME] + Vec16(name, rest))
  }

  /** The value of a server_name extension whose list opens with that host. */
  ghost predicate NamesHost(d: bytes, name: bytes) {
    exists list: bytes, slack: bytes :: |list| < 65536 && d == Vec16(list, slack) && OpensWithHost(list, name)
  }

  /** A run of complete other extensions, then a server_name extension holding the name. */
  ghost predicate CarriesHost(block: bytes, name: bytes) {
    exists xs: seq<Extension>, d: bytes, rest: bytes ::
      && |d| < 65536
      && NoServerNames(xs)
      && block == PrintExtensions(xs) + (PutU16(SERVER_NAME) + Vec16(d, rest))
      && NamesHost(d, name)
  }

  lemma {:induction false} EntriesParse(es: seq<Entry>, tail: bytes)
    requires NoHosts(es)
    ensures FindHostName(PrintEntries(es) + tail) == FindHostName(tail)
  {
    if es == [] {
      assert PrintEntries(es) + tail == tail;
    } else {
      var rest := PrintEntries(es[1..]) + tail;
      Regroup([es[0].kind], PutU16(|es[0].name|), es[0].name, PrintEntries(es[1..]), tail);
      EntryParses(es[0].kind, es[0].name, rest);
      EntriesParse(es[1..], tail);
    }
  }

  lemma EntryParses(kind: byte, name: bytes, rest: bytes)
    requires |name| < 65536
    ensures FindHostName([kind] + Vec16(name, rest)) == if kind == HOST_NAME then Ok(name) else FindHostName(rest)
  {
    var b := [kind] + Vec16(name, rest);
    Vec16Parts(name, rest);
    assert b[1..] == Vec16(name, rest);
    DropDrop(b, 1, 0);
    DropDrop(b, 1, 2 + |name|);
    assert b[3..3 + |name|] == b[1..][2..2 + |name|];
  }

  lemma EntryOf(b: bytes)
    requires |b| >= 3 && 3 + U16(b, 1) <= |b|
    ensures b == [b[0]] + Vec16(b[3..3 + U16(b, 1)], b[3 + U16(b, 1)..])
  {
  }

  lemma OpensAfter(kind: byte, value: bytes, rest: bytes, name: bytes)
    requires kind != HOST_NAME && |value| < 65536 && OpensWithHost(rest, name)
    ensures OpensWithHost([kind] + Vec16(value, rest), name)
  {
    var es, last :| |name| < 65536 && NoHosts(es) && rest == PrintEntries(es) + ([HOST_NAME] + Vec16(name, last));
    var all := [Entry(kind, value)] + es;
    assert all[1..] == es;
    Regroup([kind], PutU16(|value|), value, PrintEntries(es), [HOST_NAME] + Vec16(name, last));
    assert PrintEntries(all) == [kind] + Vec16(value, PrintEntries(es));
  }

  lemma {:induction false} EntriesOf(b: bytes, name: bytes)
    requires FindHostName(b) == Ok(name)
    ensures OpensWithHost(b, name)
    decreases |b|
  {
    EntryOf(b);
    var value, rest := b[3..3 + U16(b, 1)], b[3 + U16(b, 1)..];
    if b[0] == HOST_NAME {
      assert b == PrintEntries([]) + ([HOST_NAME] + Vec16(name, rest));
    } else {
      EntriesOf(rest, name);
      OpensAfter(b[0], value, rest, name);
    }
  }

  lemma OpensParses(list: bytes, name: bytes)
    requires OpensWithHost(list, name)
    ensures FindHostName(list) == Ok(name)
  {
    var es, rest :| |name| < 65536 && NoHosts(es) && list == PrintEntries(es) + ([HOST_NAME] + Vec16(name, rest));
    EntriesParse(es, [HOST_NAME] + Vec16(name, rest));
    EntryParses(HOST_NAME, name, rest);
  }

  lemma HostIff(d: bytes, name: bytes)
    ensures NameList(d) == Ok(name) <==> NamesHost(d, name)
  {
    if NameList(d) == Ok(name) {
      Vec16Of(d);
      EntriesOf(d[2..2 + U16(d, 0)], name);
    }
    if NamesHost(d, name) {
      var list, slack :| |list| < 65536 && d == Vec16(list, slack) && OpensWithHost(list, name);
      Vec16Parts(list, slack);
      OpensParses(list, name);
    }
  }

  lemma ExtensionParses(kind: nat, data: bytes, rest: bytes)
    requires kind < 65536 && |data| < 65536
    ensures FindServerName(PutU16(kind) + Vec16(data, rest)) ==
              if kind == SERVER_NAME then NameList(data) else FindServerName(rest)
  {
    var b := PutU16(kind) + Vec16(data, rest);
    Vec16Parts(data, rest);
    assert b[2..] == Vec16(data, rest);
    DropDrop(b, 2, 0);
    DropDrop(b, 2, 2 + |data|);
    assert b[4..4 + |data|] == b[2..][2..2 + |data|];
    assert U16(b, 0) == U16(PutU16(kind), 0);
  }

  lemma {:induction false} ExtensionsParse(xs: seq<Extension>, tail: bytes)
    requires NoServerNames(xs)
    ensures FindServerName(PrintExtensions(xs) + tail) == FindServerName(tail)
  {
    if xs == [] {
      assert PrintExtensions(xs) + tail == tail;
    } else {
      var rest := PrintExtensions(xs[1..]) + tail;
      Regroup(PutU16(xs[0].kind), PutU16(|xs[0].data|), xs[0].data, PrintExtensions(xs[1..]), tail);
      ExtensionParses(xs[0].kind, xs[0].data, rest);
      ExtensionsParse(xs[1..], tail);
    }
  }

  lemma ExtensionOf(b: bytes)
    requires |b| >= 4 && 4 + U16(b, 2) <= |b|
    ensures b == PutU16(U16(b, 0)) + Vec16(b[4..4 + U16(b, 2)], b[4 + U16(b, 2)..])
  {
  }

  lemma CarriesAfter(kind: nat, data: bytes, rest: bytes, name: bytes)
    requires 0 < kind < 65536 && |data| < 65536 && CarriesHost(rest, name)
    ensures CarriesHost(PutU16(kind) + Vec16(data, rest), name)
  {
    var xs, d, last :| |d| < 65536 && NoServerNames(xs)
                       && rest == PrintExtensions(xs) + (PutU16(SERVER_NAME) + Vec16(d, last)) && NamesHost(d, name);
    var all := [Extension(kind, data)] + xs;
    assert all[1..] == xs;
    Regroup(PutU16(kind), PutU16(|data|), data, PrintExtensions(xs), PutU16(SERVER_NAME) + Vec16(d, last));
    assert PrintExtensions(all) == PutU16(kind) + Vec16(data, PrintExtensions(xs));
  }

  lemma {:induction false} ExtensionsOf(b: bytes, name: bytes)
    requires FindServerName(b) == Ok(name)
    ensures CarriesHost(b, name)
    decreases |b|
  {
    ExtensionOf(b);
    var data, rest := b[4..4 + U16(b, 2)], b[4 + U16(b, 2)..];
    if U16(b, 0) == SERVER_NAME {
      HostIff(data, name);
      assert b == PrintExtensions([]) + (PutU16(SERVER_NAME) + Vec16(data, rest));
    } else {
      ExtensionsOf(rest, name);
      CarriesAfter(U16(b, 0), data, rest, name);
    }
  }

  lemma BlockIff(block: bytes, name: bytes)
    ensures FindServerName(block) == Ok(name) <==> CarriesHost(block, name)
  {
    if FindServerName(block) == Ok(name) {
      ExtensionsOf(block, name);
    }
    if CarriesHost(block, name) {
      var xs, d, rest :| && |d| < 65536 && NoServerNames(xs)
                         && block == PrintExtensions(xs) + (PutU16(SERVER_NAME) + Vec16(d, rest)) && NamesHost(d, name);
      ExtensionsParse(xs, PutU16(SERVER_NAME) + Vec16(d, rest));
      ExtensionParses(SERVER_NAME, d, rest);
      HostIff(d, name);
    }
  }

  /**
   The parser accepts exactly the buffers that start with a ClientHello record
   whose extensions carry a host name, and returns that name. The three-byte
   handshake length is not looked at, and bytes after the record are ignored.
   */
  lemma AcceptsExactly(data: bytes, name: bytes)
    ensures Extract(data) == Ok(name) <==>
            exists f: Frame, block: bytes, slack: bytes, after: bytes ::
              && f.Wf() && |block| < 65536 && |Payload(f, Vec16(block, slack))| < 65536
              && data == Record(f, Vec16(block, slack), after)
              && CarriesHost(block, name)
  {
    if Extract(data) == Ok(name) {
      var f, block, slack, after := RecordOf(data);
      BlockIff(block, name);
    }
    forall f: Frame, block: bytes, slack: bytes, after: bytes
      | && f.Wf() && |block| < 65536 && |Payload(f, Vec16(block, slack))| < 65536
        && data == Record(f, Vec16(block, slack), after)
        && CarriesHost(block, name)
      ensures Extract(data) == Ok(name)
    {
      BlockIff(block, name);
      BlockParses(f, block, slack, after);
    }
  }

  lemma BlockParses(f: Frame, block: bytes, slack: bytes, after: bytes)
    requires f.Wf() && |block| < 65536 && |Payload(f, Vec16(block, slack))| < 65536
    ensures Extract(Record(f, Vec16(block, slack), after)) == FindServerName(block)
  {
    RecordParses(f, Vec16(block, slack), after);
    Vec8Parts(f.compression, Vec16(block, slack));
    Vec16Parts(block, slack);
  }

  // ---------------------------------------------------------------- well-formed hellos

  datatype Offer = ServerName(names: seq<Entry>) | Other(kind: nat, data: bytes) {
    predicate Wf() {
      match this
      case ServerName(names) => (forall e :: e in names ==> |e.name| < 65536) && 2 + |PrintEntries(names)| < 65536
      case Other(kind, data) => 0 < kind < 65536 && |data| < 65536
    }

    function Printed(): Extension
      requires Wf()
    {
      match this
      case ServerName(names) => Extension(SERVER_NAME, Vec16(PrintEntries(names), []))
      case Other(kind, data) => Extension(kind, data)
    }
  }

  /** The extensions block is optional (section 7.4.1.2 of RFC 5246). */
  datatype Hello = Hello(frame: Frame, offers: Option<seq<Offer>>) {
    predicate Wf() {
      && frame.Wf()
      && (offers.Some? ==> (forall o :: o in offers.value ==> o.Wf()) && |PrintOffers(offers.value)| < 65536)
      && |Payload(frame, PrintBlock(offers))| < 65536
    }
  }

  function PrintOffers(os: seq<Offer>): bytes
    requires forall o :: o in os ==> o.Wf()
  {
    if os == [] then [] else
      var x := os[0].Printed();
      PutU16(x.kind) + Vec16(x.data, PrintOffers(os[1..]))
  }

  function PrintBlock(offers: Option<seq<Offer>>): bytes
    requires offers.Some? ==> (forall o :: o in offers.value ==> o.Wf()) && |PrintOffers(offers.value)| < 65536
  {
    if offers.None? then [] else Vec16(PrintOffers(offers.value), [])
  }

  function FirstHost(es: seq<Entry>): Result {
    if es == [] then Err(NoHostName)
    else if es[0].kind == HOST_NAME then Ok(es[0].name)
    else FirstHost(es[1..])
  }

  function FirstServerName(os: seq<Offer>): Result {
    if os == [] then Err(NoServerName)
    else if os[0].ServerName? then FirstHost(os[0].names)
    else FirstServerName(os[1..])
  }

  lemma {:induction false} NamesRoundTrip(es: seq<Entry>)
    requires forall e :: e in es ==> |e.name| < 65536
    ensures FindHostName(PrintEntries(es)) == FirstHost(es)
  {
    if es != [] {
      EntryParses(es[0].kind, es[0].name, PrintEntries(es[1..]));
      NamesRoundTrip(es[1..]);
    }
  }

  lemma {:induction false} OffersRoundTrip(os: seq<Offer>)
    requires forall o :: o in os ==> o.Wf()
    ensures FindServerName(PrintOffers(os)) == FirstServerName(os)
  {
    if os != [] {
      var x := os[0].Printed();
      ExtensionParses(x.kind, x.data, PrintOffers(os[1..]));
      if os[0].ServerName? {
        Vec16Parts(PrintEntries(os[0].names), []);
        NamesRoundTrip(os[0].names);
      } else {
        OffersRoundTrip(os[1..]);
      }
    }
  }

  /** Parsing a printed hello gives the first host name of its first server_name extension. */
  lemma HelloRoundTrip(h: Hello, after: bytes)
    requires h.Wf()
    ensures Extract(Record(h.frame, PrintBlock(h.offers), after)) ==
            if h.offers.None? then Err(NoExtensions) else FirstServerName(h.offers.value)
  {
    if h.offers.None? {
      RecordParses(h.frame, [], after);
      Vec8Parts(h.frame.compression, []);
    } else {
      BlockParses(h.frame, PrintOffers(h.offers.value), [], after);
      OffersRoundTrip(h.offers.value);
    }
  }

  // ---------------------------------------------------------------- a hello on the wire

  /** A whole hello, byte by byte: TLS 1.2, one cipher suite, and the server name "ab". */
  lemma SampleParses(head: bytes, random: bytes, tail: bytes)
    requires head == [0x16, 3, 1, 0, 58, 1, 0, 0, 54, 3, 3] && |random| == 32
    requires tail == [0, 0, 2, 0x13, 1, 1, 0, 0, 11, 0, 0, 0, 7, 0, 5, 0, 0, 2, 0x61, 0x62]
    ensures Extract(head + random + tail) == Ok([0x61, 0x62])
  {
    hide Extract, AfterRandom, FindServerName;
    var data := head + random + tail;
    assert data[0] == head[0] && data[3] == head[3] && data[4] == head[4] && data[5] == head[5];
    SampleHead(data);
    assert data[43..] == tail;
    SampleVectors(tail);
    SampleName(tail[9..]);
  }

  lemma SampleHead(data: bytes)
    requires |data| == 63 && data[0] == 0x16 && data[3] == 0 && data[4] == 58 && data[5] == 1
    ensures Extract(data) == AfterRandom(data[43..])
  {
    hide AfterRandom;
    assert data[5..63][38..] == data[43..];
  }

  lemma SampleVectors(b: bytes)
    requires |b| == 20 && b[0] == 0 && b[1..3] == [0, 2] && b[5..7] == [1, 0] && b[7..9] == [0, 11]
    ensures AfterRandom(b) == FindServerName(b[9..])
  {
    hide FindServerName;
    assert b[1] == b[1..3][0] && b[2] == b[1..3][1] && b[5] == b[5..7][0] && b[7] == b[7..9][0] && b[8] == b[7..9][1];
    assert b[1..][4..] == b[5..] && b[5..][2..] == b[7..] && b[7..][2..13] == b[9..];
  }

  lemma SampleName(b: bytes)
    requires b == [0, 0, 0, 7, 0, 5, 0, 0, 2, 0x61, 0x62]
    ensures FindServerName(b) == Ok([0x61, 0x62])
  {
    assert b[4..11] == [0, 5, 0, 0, 2, 0x61, 0x62];
    assert b[4..11][2..7] == [0, 0, 2, 0x61, 0x62];
  }
}
