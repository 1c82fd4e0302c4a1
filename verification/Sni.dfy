// Server name extraction from a TLS ClientHello (section 4.1.2 of RFC 8446,
// section 3 of RFC 6066) and the transparent replay of what was peeked.

module Sni {
  import opened Basics
  import Framing

  const TLS_HEADER := 5
  const HANDSHAKE: byte := 0x16
  const CLIENT_HELLO: byte := 0x01
  const MAX_RECORD := 16384
  const MAX_PEEK := 65536
  const SERVER_NAME := 0
  const HOST_NAME: byte := 0

  // ----- The message, and its encoding -----

  datatype ServerName = ServerName(kind: byte, name: seq<byte>)

  datatype Extension = Names(names: seq<ServerName>) | Opaque(kind: nat, data: seq<byte>)

  /** version and random are the 34 octets before the session id; the extension block may be absent;
      rest is whatever follows in the record. */
  datatype Hello = Hello(
    length: seq<byte>,
    versionRandom: seq<byte>,
    sessionId: seq<byte>,
    ciphers: seq<byte>,
    compression: seq<byte>,
    extensions: Option<seq<Extension>>,
    rest: seq<byte>)

  function EncodeName(n: ServerName): seq<byte> {
    [n.kind] + PutU16(|n.name|) + n.name
  }

  function EncodeNames(ns: seq<ServerName>): seq<byte> {
    if ns == [] then [] else EncodeName(ns[0]) + EncodeNames(ns[1..])
  }

  function Kind(e: Extension): nat {
    if e.Names? then SERVER_NAME else e.kind
  }

  function Data(e: Extension): seq<byte> {
    if e.Names? then PutU16(|EncodeNames(e.names)|) + EncodeNames(e.names) else e.data
  }

  function EncodeExtension(e: Extension): seq<byte> {
    PutU16(Kind(e)) + PutU16(|Data(e)|) + Data(e)
  }

  function EncodeExtensions(es: seq<Extension>): seq<byte> {
    if es == [] then [] else EncodeExtension(es[0]) + EncodeExtensions(es[1..])
  }

  /** A field with a one-octet length, before what follows. */
  function Field8(f: seq<byte>, next: seq<byte>): seq<byte> {
    [|f| % 256] + f + next
  }

  /** A field with a two-octet length, before what follows. */
  function Field16(f: seq<byte>, next: seq<byte>): seq<byte> {
    PutU16(|f|) + f + next
  }

  function EncodeBlock(h: Hello): seq<byte> {
    match h.extensions
    case None => []
    case Some(es) => Field16(EncodeExtensions(es), h.rest)
  }

  function EncodeHello(h: Hello): seq<byte> {
    [CLIENT_HELLO] + h.length + h.versionRandom
    + Field8(h.sessionId, Field16(h.ciphers, Field8(h.compression, EncodeBlock(h))))
  }

  ghost predicate WellFormedExtension(e: Extension) {
    match e
    case Names(ns) => (forall n | n in ns :: |n.name| < 0x1_0000) && |EncodeNames(ns)| < 0x1_0000 - 2
    case Opaque(kind, data) => 0 < kind < 0x1_0000 && |data| < 0x1_0000
  }

  /** Every variable-length field fits its length prefix. */
  ghost predicate WellFormed(h: Hello) {
    && |h.length| == 3 && |h.versionRandom| == 34
    && |h.sessionId| < 256 && |h.ciphers| < 0x1_0000 && |h.compression| < 256
    && (h.extensions.Some? ==>
          && |EncodeExtensions(h.extensions.value)| < 0x1_0000
          && forall e | e in h.extensions.value :: WellFormedExtension(e))
  }

  // ----- What the parser is to find -----

  function LowerOctet(b: byte): byte {
    if 0x41 <= b <= 0x5A then b + 0x20 else b
  }

  function Lower(s: seq<byte>): seq<byte> {
    seq(|s|, i requires 0 <= i < |s| => LowerOctet(s[i]))
  }

  function FirstHost(ns: seq<ServerName>): seq<byte> {
    if ns == [] then [] else if ns[0].kind == HOST_NAME then Lower(ns[0].name) else FirstHost(ns[1..])
  }

  function FirstServerName(es: seq<Extension>): seq<byte> {
    if es == [] then [] else if es[0].Names? then FirstHost(es[0].names) else FirstServerName(es[1..])
  }

  function Expected(h: Hello): seq<byte> {
    if h.extensions.None? then [] else FirstServerName(h.extensions.value)
  }

  // ----- The walks, as functions of what is left -----

  /** The name walk over the entries of a server_name list. */
  function WalkNames(s: seq<byte>): seq<byte>
    decreases |s|
  {
    if |s| < 3 then []
    else
      var len := U16(s[1], s[2]);
      if 3 + len > |s| then []
      else if s[0] == HOST_NAME then Lower(s[3..3 + len])
      else WalkNames(s[3 + len..])
  }

  function ParseNames(data: seq<byte>): seq<byte> {
    if |data| < 2 then []
    else
      var len := U16(data[0], data[1]);
      WalkNames(data[2..if |data| < 2 + len then |data| else 2 + len])
  }

  /** The extension walk. */
  function WalkExtensions(s: seq<byte>): seq<byte>
    decreases |s|
  {
    if |s| < 4 then []
    else
      var len := U16(s[2], s[3]);
      if 4 + len > |s| then []
      else if U16(s[0], s[1]) == SERVER_NAME then ParseNames(s[4..4 + len])
      else WalkExtensions(s[4 + len..])
  }

  /** What remains after a field with a one-octet length. */
  function Skip8(s: seq<byte>): Option<seq<byte>> {
    if |s| < 1 || 1 + s[0] as int > |s| then None else Some(s[1 + s[0] as int..])
  }

  /** What remains after a field with a two-octet length. */
  function Skip16(s: seq<byte>): Option<seq<byte>> {
    if |s| < 2 || 2 + U16(s[0], s[1]) > |s| then None else Some(s[2 + U16(s[0], s[1])..])
  }

  function ParseExtensions(s: seq<byte>): seq<byte> {
    if |s| < 2 then []
    else
      var len := U16(s[0], s[1]);
      WalkExtensions(s[2..if |s| < 2 + len then |s| else 2 + len])
  }

  /** Past session id, cipher suites and compression methods. */
  function AfterFields(s: seq<byte>): Option<seq<byte>> {
    var c := Skip8(s);
    if c.None? then None
    else
      var m := Skip16(c.value);
      if m.None? then None else Skip8(m.value)
  }

  function ParseHello(data: seq<byte>): seq<byte> {
    if |data| < 38 || data[0] != CLIENT_HELLO then []
    else
      var b := AfterFields(data[38..]);
      if b.None? then [] else ParseExtensions(b.value)
  }

  // ----- The parser's loops -----

  /** One step of the name walk, at a position. */
  lemma NamesAt(data: seq<byte>, pos: nat, end: nat, len: nat)
    requires pos + 3 <= end <= |data| && len == U16(data[pos + 1], data[pos + 2])
    ensures WalkNames(data[pos..end]) ==
            if pos + 3 + len > end then []
            else if data[pos] == HOST_NAME then Lower(data[pos + 3..pos + 3 + len])
            else WalkNames(data[pos + 3 + len..end])
  {
    var left := data[pos..end];
    NamesStep(left, len);
    if pos + 3 + len <= end {
      SliceOfSlice(data, pos, end, 3, 3 + len);
      SliceOfSlice(data, pos, end, 3 + len, end - pos);
      assert left[3 + len..] == left[3 + len..end - pos];
    }
  }

  lemma NamesStep(left: seq<byte>, len: nat)
    requires |left| >= 3 && len == U16(left[1], left[2])
    ensures WalkNames(left) ==
            if 3 + len > |left| then []
            else if left[0] == HOST_NAME then Lower(left[3..3 + len])
            else WalkNames(left[3 + len..])
  {
  }

  method WalkList(data: seq<byte>, start: nat, end: nat) returns (host: seq<byte>)
    requires start <= end <= |data|
    ensures host == WalkNames(data[start..end])
  {
    var pos := start;
    while pos + 3 <= end
      invariant start <= pos <= end
      invariant WalkNames(data[pos..end]) == WalkNames(data[start..end])
    {
      var nameType, nameLen := data[pos], U16(data[pos + 1], data[pos + 2]);
      NamesAt(data, pos, end, nameLen);
      pos := pos + 3;
      if pos + nameLen > end {
        return [];
      }
      if nameType == HOST_NAME {
        return Lower(data[pos..pos + nameLen]);
      }
      pos := pos + nameLen;
    }
    host := [];
  }

  method ParseSniExtension(data: seq<byte>) returns (host: seq<byte>)
    ensures host == ParseNames(data)
  {
    if |data| < 2 {
      return [];
    }
    var listLen := U16(data[0], data[1]);
    var end := if |data| < 2 + listLen then |data| else 2 + listLen;
    host := WalkList(data, 2, end);
  }

  /** One step of the extension walk, at a position. */
  lemma ExtensionsAt(data: seq<byte>, pos: nat, end: nat, kind: nat, len: nat)
    requires pos + 4 <= end <= |data|
    requires kind == U16(data[pos], data[pos + 1]) && len == U16(data[pos + 2], data[pos + 3])
    ensures WalkExtensions(data[pos..end]) ==
            if pos + 4 + len > end then []
            else if kind == SERVER_NAME then ParseNames(data[pos + 4..pos + 4 + len])
            else WalkExtensions(data[pos + 4 + len..end])
  {
    var left := data[pos..end];
    assert left[0] == data[pos] && left[1] == data[pos + 1] && left[2] == data[pos + 2] && left[3] == data[pos + 3];
    if pos + 4 + len <= end {
      SliceOfSlice(data, pos, end, 4, 4 + len);
      SliceOfSlice(data, pos, end, 4 + len, end - pos);
    }
  }

  method WalkBlock(data: seq<byte>, start: nat, end: nat) returns (host: seq<byte>)
    requires start <= end <= |data|
    ensures host == WalkExtensions(data[start..end])
  {
    var pos := start;
    while pos + 4 <= end
      invariant start <= pos <= end
      invariant WalkExtensions(data[pos..end]) == WalkExtensions(data[start..end])
    {
      var extType, extLen := U16(data[pos], data[pos + 1]), U16(data[pos + 2], data[pos + 3]);
      ExtensionsAt(data, pos, end, extType, extLen);
      pos := pos + 4;
      if pos + extLen > end {
        return [];
      }
      if extType == SERVER_NAME {
        host := ParseSniExtension(data[pos..pos + extLen]);
        return;
      }
      pos := pos + extLen;
    }
    host := [];
  }

  method SkipOctets8(data: seq<byte>, pos: nat) returns (after: Option<nat>)
    requires pos <= |data|
    ensures after.Some? ==> pos <= after.value <= |data| && Skip8(data[pos..]) == Some(data[after.value..])
    ensures after.None? ==> Skip8(data[pos..]) == None
  {
    if |data| < pos + 1 {
      return None;
    }
    var len := data[pos] as int;
    if pos + 1 + len > |data| {
      return None;
    }
    TailOfTail(data, pos, 1 + len);
    after := Some(pos + 1 + len);
  }

  method SkipOctets16(data: seq<byte>, pos: nat) returns (after: Option<nat>)
    requires pos <= |data|
    ensures after.Some? ==> pos <= after.value <= |data| && Skip16(data[pos..]) == Some(data[after.value..])
    ensures after.None? ==> Skip16(data[pos..]) == None
  {
    if |data| < pos + 2 {
      return None;
    }
    var len := U16(data[pos], data[pos + 1]);
    ghost var left := data[pos..];
    assert U16(left[0], left[1]) == len;
    if pos + 2 + len > |data| {
      return None;
    }
    TailOfTail(data, pos, 2 + len);
    after := Some(pos + 2 + len);
  }

  /** parseSNIFromClientHello: total on every byte string. */
  method ParseClientHello(data: seq<byte>) returns (host: seq<byte>)
    ensures host == ParseHello(data)
  {
    if |data| < 4 || data[0] != CLIENT_HELLO {
      return [];
    }
    var pos := 4;
    if |data| < pos + 2 + 32 {
      return [];
    }
    pos := pos + 2 + 32;
    var ciphers := SkipOctets8(data, pos);
    if ciphers.None? {
      return [];
    }
    var compression := SkipOctets16(data, ciphers.value);
    if compression.None? {
      return [];
    }
    var extensions := SkipOctets8(data, compression.value);
    if extensions.None? {
      return [];
    }
    assert AfterFields(data[38..]) == Some(data[extensions.value..]);
    host := ParseBlock(data, extensions.value);
  }

  method ParseBlock(data: seq<byte>, start: nat) returns (host: seq<byte>)
    requires start <= |data|
    ensures host == ParseExtensions(data[start..])
  {
    if |data| < start + 2 {
      return [];
    }
    var extLen := U16(data[start], data[start + 1]);
    var pos := start + 2;
    var end := if |data| < pos + extLen then |data| else pos + extLen;
    ghost var block := data[start..];
    assert data[pos..end] == block[2..if |block| < 2 + extLen then |block| else 2 + extLen];
    host := WalkBlock(data, pos, end);
  }

  // ----- Round trip -----

  lemma Length16(n: nat)
    requires n < 0x1_0000
    ensures |PutU16(n)| == 2 && U16(PutU16(n)[0], PutU16(n)[1]) == n
  {
    U16RoundTrip(n);
  }

  lemma {:induction false} WalkEncodedNames(ns: seq<ServerName>)
    requires forall n | n in ns :: |n.name| < 0x1_0000
    ensures WalkNames(EncodeNames(ns)) == FirstHost(ns)
  {
    if ns != [] {
      var n, s := ns[0], EncodeNames(ns);
      Length16(|n.name|);
      assert s[1] == PutU16(|n.name|)[0] && s[2] == PutU16(|n.name|)[1];
      assert s[3..3 + |n.name|] == n.name;
      assert s[3 + |n.name|..] == EncodeNames(ns[1..]);
      WalkEncodedNames(ns[1..]);
    }
  }

  lemma ParseEncodedNames(ns: seq<ServerName>)
    requires (forall n | n in ns :: |n.name| < 0x1_0000) && |EncodeNames(ns)| < 0x1_0000
    ensures ParseNames(PutU16(|EncodeNames(ns)|) + EncodeNames(ns)) == FirstHost(ns)
  {
    var s := PutU16(|EncodeNames(ns)|) + EncodeNames(ns);
    Length16(|EncodeNames(ns)|);
    assert s[2..2 + |EncodeNames(ns)|] == EncodeNames(ns);
    WalkEncodedNames(ns);
  }

  /** One step of the extension walk over an encoded extension. */
  lemma WalkOne(kind: nat, d: seq<byte>, next: seq<byte>)
    requires kind < 0x1_0000 && |d| < 0x1_0000
    ensures WalkExtensions(PutU16(kind) + PutU16(|d|) + d + next) ==
            if kind == SERVER_NAME then ParseNames(d) else WalkExtensions(next)
  {
    var s := PutU16(kind) + PutU16(|d|) + d + next;
    Length16(kind);
    Length16(|d|);
    assert s[0] == PutU16(kind)[0] && s[1] == PutU16(kind)[1];
    assert s[2] == PutU16(|d|)[0] && s[3] == PutU16(|d|)[1];
    assert s[4..4 + |d|] == d;
    assert s[4 + |d|..] == next;
  }

  lemma {:induction false} WalkEncodedExtensions(es: seq<Extension>)
    requires forall e | e in es :: WellFormedExtension(e)
    ensures WalkExtensions(EncodeExtensions(es)) == FirstServerName(es)
  {
    if es != [] {
      var e := es[0];
      assert WellFormedExtension(e);
      if e.Names? {
        assert |PutU16(|EncodeNames(e.names)|)| == 2;
        ParseEncodedNames(e.names);
      }
      WalkOne(Kind(e), Data(e), EncodeExtensions(es[1..]));
      WalkEncodedExtensions(es[1..]);
    }
  }

  lemma SkipField8(f: seq<byte>, next: seq<byte>)
    requires |f| < 256
    ensures Skip8(Field8(f, next)) == Some(next)
  {
    assert Field8(f, next)[1 + |f|..] == next;
  }

  lemma SkipField16(f: seq<byte>, next: seq<byte>)
    requires |f| < 0x1_0000
    ensures Skip16(Field16(f, next)) == Some(next)
  {
    Length16(|f|);
    assert Field16(f, next)[2 + |f|..] == next;
  }

  lemma ParseEncodedBlock(h: Hello)
    requires WellFormed(h)
    ensures ParseExtensions(EncodeBlock(h)) == Expected(h)
  {
    if h.extensions.Some? {
      var es := EncodeExtensions(h.extensions.value);
      Length16(|es|);
      assert EncodeBlock(h)[2..2 + |es|] == es;
      WalkEncodedExtensions(h.extensions.value);
    }
  }

  /** For every well-formed ClientHello the parser finds the lower-cased first host_name of the first
      server_name extension, and nothing if there is none. */
  lemma HelloRoundTrip(h: Hello)
    requires WellFormed(h)
    ensures ParseHello(EncodeHello(h)) == Expected(h)
  {
    var m := Field8(h.compression, EncodeBlock(h));
    var c := Field16(h.ciphers, m);
    var s := Field8(h.sessionId, c);
    assert EncodeHello(h)[38..] == s;
    SkipField8(h.sessionId, c);
    SkipField16(h.ciphers, m);
    SkipField8(h.compression, EncodeBlock(h));
    ParseEncodedBlock(h);
  }

  // ----- Peeking -----

  datatype Peek = Peeked(bytes: seq<byte>, host: seq<byte>) | Refused

  function RecordLength(hdr: seq<byte>): nat
    requires |hdr| == TLS_HEADER
  {
    U16(hdr[3], hdr[4])
  }

  /** What peekSNI makes of a stream. */
  function PeekOf(s: seq<byte>): Peek {
    if |s| < TLS_HEADER then Refused
    else
      var hdr, rest := s[..TLS_HEADER], s[TLS_HEADER..];
      if hdr[0] != HANDSHAKE then Peeked(hdr, [])
      else
        var len := RecordLength(hdr);
        if len == 0 || len > MAX_RECORD || |rest| < len then Refused
        else Peeked(hdr + rest[..len], ParseHello(rest[..len]))
  }

  /** On success nothing is lost or reordered: the peeked bytes, replayed before what is still unread,
      are the original stream. */
  method PeekSni(conn: Framing.Conn) returns (p: Peek)
    modifies conn`input
    ensures p == PeekOf(old(conn.input))
    ensures p.Peeked? ==> p.bytes + conn.input == old(conn.input)
  {
    var hdr := conn.ReadFull(TLS_HEADER);
    if hdr.None? {
      return Refused;
    }
    if hdr.value[0] != HANDSHAKE {
      return Peeked(hdr.value, []);
    }
    var recLen := RecordLength(hdr.value);
    if recLen <= 0 || recLen > MAX_RECORD || TLS_HEADER + recLen > MAX_PEEK {
      return Refused;
    }
    var body := conn.ReadFull(recLen);
    if body.None? {
      return Refused;
    }
    var host := ParseClientHello(body.value);
    p := Peeked(hdr.value + body.value, host);
  }

  /** A ClientHello in one record, of type 22. */
  function Record(version: seq<byte>, h: Hello): seq<byte>
    requires |version| == 2
  {
    [22] + version + PutU16(|EncodeHello(h)|) + EncodeHello(h)
  }

  /** For every well-formed ClientHello that fits one record, whatever follows on the connection. */
  lemma PeekRoundTrip(version: seq<byte>, h: Hello, more: seq<byte>)
    requires |version| == 2 && WellFormed(h)
    ensures |EncodeHello(h)| <= 16384 ==>
              PeekOf(Record(version, h) + more) == Peeked(Record(version, h), Expected(h))
    ensures 16384 < |EncodeHello(h)| < 0x1_0000 ==> PeekOf(Record(version, h) + more) == Refused
  {
    var e := EncodeHello(h);
    if |e| < 0x1_0000 {
      Length16(|e|);
      var hdr := [22] + version + PutU16(|e|);
      var s := Record(version, h) + more;
      assert s[..TLS_HEADER] == hdr && s[TLS_HEADER..] == e + more;
      assert RecordLength(hdr) == |e| > 0;
      if |e| <= MAX_RECORD {
        assert (e + more)[..|e|] == e;
        HelloRoundTrip(h);
      }
    }
  }

  // ----- The octets themselves -----

  /** Only the upper-case ASCII letters change, to the lower-case ones. */
  lemma Lowered(s: seq<byte>)
    ensures |Lower(s)| == |s|
    ensures forall i | 0 <= i < |s| :: !(65 <= Lower(s)[i] <= 90)
    ensures forall i | 0 <= i < |s| :: Lower(s)[i] != s[i] <==> 65 <= s[i] <= 90
    ensures forall i | 0 <= i < |s| :: Lower(s)[i] != s[i] ==> Lower(s)[i] == s[i] + 32
  {
  }

  /** Two octets, most significant first. */
  function Two(n: nat): seq<byte>
    requires n < 0x1_0000
  {
    [n / 256, n % 256]
  }

  /** An extension block with one extension, of type 0, that holds a list of one entry of type 0. */
  function NameBlock(name: seq<byte>): (block: seq<byte>)
    requires |name| < 0x1_0000 - 9
    ensures |block| == 11 + |name|
  {
    Two(|name| + 9) + ([0, 0] + Two(|name| + 5) + Two(|name| + 3) + [0] + Two(|name|) + name)
  }

  /** A ClientHello without a session id, with two cipher suites and the null compression method, that names a
      server. */
  function PlainHello(length: seq<byte>, versionRandom: seq<byte>, name: seq<byte>): (hello: seq<byte>)
    requires |name| < 0x1_0000 - 9 && |length| == 3 && |versionRandom| == 34
    ensures |hello| == 58 + |name|
  {
    [1] + length + versionRandom + ([0] + ([0, 4, 0x13, 0x01, 0x13, 0x02] + ([1, 0] + NameBlock(name))))
  }

  function HelloWithName(length: seq<byte>, versionRandom: seq<byte>, name: seq<byte>): Hello {
    Hello(length, versionRandom, [], [0x13, 0x01, 0x13, 0x02], [0], Some([Names([ServerName(0, name)])]), [])
  }

  lemma NameOnTheWire(name: seq<byte>)
    requires |name| < 0x1_0000 - 9
    ensures EncodeNames([ServerName(0, name)]) == [0] + Two(|name|) + name
    ensures EncodeExtensions([Names([ServerName(0, name)])])
            == [0, 0] + Two(|name| + 5) + Two(|name| + 3) + [0] + Two(|name|) + name
  {
    var n := ServerName(0, name);
    var e := Names([n]);
    assert EncodeNames([n]) == EncodeName(n) + [] == [0] + Two(|name|) + name;
    assert Data(e) == Two(|name| + 3) + EncodeNames([n]);
    assert EncodeExtension(e) == [0, 0] + Two(|name| + 5) + Data(e);
    assert EncodeExtensions([e]) == EncodeExtension(e) + [];
  }

  lemma BlockIs(length: seq<byte>, versionRandom: seq<byte>, name: seq<byte>)
    requires |name| < 0x1_0000 - 9 && |length| == 3 && |versionRandom| == 34
    ensures var h := HelloWithName(length, versionRandom, name);
            EncodeBlock(h) == NameBlock(name) && WellFormed(h)
  {
    NameOnTheWire(name);
    var es := EncodeExtensions([Names([ServerName(0, name)])]);
    TwoBefore(es, [0, 0] + Two(|name| + 5) + Two(|name| + 3) + [0] + Two(|name|) + name);
  }

  lemma TwoBefore(es: seq<byte>, same: seq<byte>)
    requires es == same && |es| < 0x1_0000
    ensures Field16(es, []) == Two(|es|) + same
  {
  }

  lemma FieldsAre(next: seq<byte>)
    ensures Field8([], next) == [0] + next
    ensures Field16([0x13, 0x01, 0x13, 0x02], next) == [0, 4, 0x13, 0x01, 0x13, 0x02] + next
    ensures Field8([0], next) == [1, 0] + next
  {
  }

  lemma PlainHelloIs(length: seq<byte>, versionRandom: seq<byte>, name: seq<byte>)
    requires |name| < 0x1_0000 - 9 && |length| == 3 && |versionRandom| == 34
    ensures EncodeHello(HelloWithName(length, versionRandom, name)) == PlainHello(length, versionRandom, name)
  {
    var block := NameBlock(name);
    BlockIs(length, versionRandom, name);
    FieldsAre(block);
    FieldsAre([1, 0] + block);
    FieldsAre([0, 4, 0x13, 0x01, 0x13, 0x02] + ([1, 0] + block));
  }

  /** The name in such a message is found, whatever it is. */
  lemma PlainHelloParses(length: seq<byte>, versionRandom: seq<byte>, name: seq<byte>)
    requires |name| < 0x1_0000 - 9 && |length| == 3 && |versionRandom| == 34
    ensures ParseHello(PlainHello(length, versionRandom, name)) == Lower(name)
  {
    PlainHelloIs(length, versionRandom, name);
    BlockIs(length, versionRandom, name);
    HelloRoundTrip(HelloWithName(length, versionRandom, name));
  }

  /** A record that holds such a message is peeked whole, with the name, if and only if it holds at most 16384
      octets. */
  lemma PlainRecordPeeks(
    version: seq<byte>, length: seq<byte>, versionRandom: seq<byte>, name: seq<byte>, more: seq<byte>)
    requires |name| < 0x1_0000 - 58 && |version| == 2 && |length| == 3 && |versionRandom| == 34
    ensures var record := Record(version, HelloWithName(length, versionRandom, name));
            PeekOf(record + more) == if |name| <= 16326 then Peeked(record, Lower(name)) else Refused
  {
    PlainHelloIs(length, versionRandom, name);
    BlockIs(length, versionRandom, name);
    NameExpected(length, versionRandom, name);
    PeekRoundTrip(version, HelloWithName(length, versionRandom, name), more);
  }

  lemma NameExpected(length: seq<byte>, versionRandom: seq<byte>, name: seq<byte>)
    ensures Expected(HelloWithName(length, versionRandom, name)) == Lower(name)
  {
  }

  /** A stream that does not start with octet 22 is not TLS: its first five octets are handed on, without a name. */
  lemma OtherStreams(s: seq<byte>)
    requires |s| >= 5 && s[0] != 22
    ensures PeekOf(s) == Peeked(s[..5], [])
  {
  }
}
