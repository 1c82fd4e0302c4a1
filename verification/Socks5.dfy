// Server side of SOCKS version 5: greeting, username/password sub-negotiation and CONNECT request
// (sections 3 and 4 of RFC 1928, section 2 of RFC 1929).

module Socks5 {
  import opened Basics
  import Framing

  const VERSION: byte := 0x05
  const AUTH_NONE: byte := 0x00
  const AUTH_PASSWORD: byte := 0x02
  const AUTH_NO_ACCEPT: byte := 0xFF
  const AUTH_VERSION: byte := 0x01
  const CMD_CONNECT: byte := 0x01
  const ATYP_IPV4: byte := 0x01
  const ATYP_DOMAIN: byte := 0x03
  const ATYP_IPV6: byte := 0x04
  const GENERAL_FAILURE: byte := 0x01
  const CMD_NOT_SUPPORTED: byte := 0x07
  const ADDR_NOT_SUPPORTED: byte := 0x08

  // ----- Targets -----

  /** A target host as the client named it. */
  datatype Host = IPv4(octets: seq<byte>) | Domain(name: seq<byte>) | IPv6(octets: seq<byte>)

  datatype Target = Target(host: Host, port: nat)

  /** The library decisions about names: is it an IP literal, and is a name with non-ASCII octets let through. */
  datatype Lexicon = Lexicon(isIpLiteral: seq<byte> -> bool, admitsNonAscii: seq<byte> -> bool)

  const DOT: byte := 46
  const HYPHEN: byte := 45

  predicate IsAlphaNum(c: byte) {
    97 <= c <= 122 || 65 <= c <= 90 || 48 <= c <= 57
  }

  predicate ValidLabel(piece: seq<byte>) {
    && 1 <= |piece| <= 63
    && forall i | 0 <= i < |piece| ::
         IsAlphaNum(piece[i]) || (piece[i] == HYPHEN && i != 0 && i != |piece| - 1)
  }

  /** The pieces of name between its dots. */
  function Labels(name: seq<byte>): (ls: seq<seq<byte>>)
    ensures |ls| > 0
  {
    if name == [] then [[]]
    else
      var ls := Labels(name[1..]);
      if name[0] == DOT then [[]] + ls else [[name[0]] + ls[0]] + ls[1..]
  }

  predicate ValidDomain(lex: Lexicon, name: seq<byte>) {
    && name != []
    && (|| lex.isIpLiteral(name)
        || (if exists c | c in name :: c >= 128 then lex.admitsNonAscii(name)
            else |name| <= 253 && forall piece | piece in Labels(name) :: ValidLabel(piece)))
  }

  predicate ValidTarget(lex: Lexicon, t: Target) {
    && (t.host.Domain? ==> ValidDomain(lex, t.host.name))
    && 1 <= t.port <= 65535
  }

  // ----- The conversation, octet by octet -----

  datatype Config = Config(user: seq<byte>, pass: seq<byte>) {
    predicate AuthRequired() {
      user != [] && pass != []
    }

    function Method(): byte {
      if AuthRequired() then AUTH_PASSWORD else AUTH_NONE
    }
  }

  /** A connection: octets unread, octets written, and how many more writes it will accept. */
  datatype Link = Link(input: seq<byte>, output: seq<byte>, budget: nat) {
    function Skip(n: nat): Link {
      this.(input := if n <= |input| then input[n..] else [])
    }

    function Put(bytes: seq<byte>): Link {
      if budget == 0 then this else Link(input, output + bytes, budget - 1)
    }
  }

  datatype Phase<+T> = Go(value: T, link: Link) | Stop(link: Link)

  /** An error reply with a zero bound address and port. */
  function Reply(rep: byte): seq<byte> {
    [VERSION, rep, 0, ATYP_IPV4, 0, 0, 0, 0, 0, 0]
  }

  function Greeting(cfg: Config, s: Link): Phase<bool> {
    if |s.input| < 2 then Stop(s.Skip(2))
    else
      var version, n, s := s.input[0], s.input[1], s.Skip(2);
      if version != VERSION then Stop(s)
      else if n == 0 then Stop(s.Put([VERSION, AUTH_NO_ACCEPT]))
      else if |s.input| < n then Stop(s.Skip(n))
      else if cfg.Method() !in s.input[..n] then Stop(s.Skip(n).Put([VERSION, AUTH_NO_ACCEPT]))
      else if s.budget == 0 then Stop(s.Skip(n))
      else Go(cfg.AuthRequired(), s.Skip(n).Put([VERSION, cfg.Method()]))
  }

  function Octets(n: nat, s: Link): Phase<seq<byte>> {
    if |s.input| < n then Stop(s.Skip(n)) else Go(s.input[..n], s.Skip(n))
  }

  /** A length octet and that many octets. */
  function Counted(s: Link): Phase<seq<byte>> {
    if s.input == [] then Stop(s) else Octets(s.input[0], s.Skip(1))
  }

  function Authenticate(cfg: Config, s: Link): Phase<()> {
    if |s.input| < 2 then Stop(s.Skip(2))
    else if s.input[0] != AUTH_VERSION then Stop(s.Skip(2).Put([AUTH_VERSION, 1]))
    else
      match Octets(s.input[1], s.Skip(2))
      case Stop(t) => Stop(t)
      case Go(user, t) =>
        match Counted(t)
        case Stop(u) => Stop(u)
        case Go(pass, u) =>
          if user != cfg.user || pass != cfg.pass then Stop(u.Put([AUTH_VERSION, 1]))
          else if u.budget == 0 then Stop(u)
          else Go((), u.Put([AUTH_VERSION, 0]))
  }

  function Address(atyp: byte, s: Link): Phase<Host> {
    if atyp == ATYP_IPV4 then
      if |s.input| < 4 then Stop(s.Skip(4)) else Go(IPv4(s.input[..4]), s.Skip(4))
    else if atyp == ATYP_DOMAIN then
      match Counted(s)
      case Stop(t) => Stop(t)
      case Go(name, t) => Go(Domain(name), t)
    else if atyp == ATYP_IPV6 then
      if |s.input| < 16 then Stop(s.Skip(16)) else Go(IPv6(s.input[..16]), s.Skip(16))
    else Stop(s.Put(Reply(ADDR_NOT_SUPPORTED)))
  }

  function Port(lex: Lexicon, host: Host, s: Link): Phase<Target> {
    if |s.input| < 2 then Stop(s.Skip(2))
    else
      var target := Target(host, U16(s.input[0], s.input[1]));
      if ValidTarget(lex, target) then Go(target, s.Skip(2)) else Stop(s.Skip(2).Put(Reply(GENERAL_FAILURE)))
  }

  function Request(lex: Lexicon, s: Link): Phase<Target> {
    if |s.input| < 4 then Stop(s.Skip(4))
    else if s.input[0] != VERSION then Stop(s.Skip(4).Put(Reply(GENERAL_FAILURE)))
    else if s.input[1] != CMD_CONNECT then Stop(s.Skip(4).Put(Reply(CMD_NOT_SUPPORTED)))
    else
      match Address(s.input[3], s.Skip(4))
      case Stop(t) => Stop(t)
      case Go(host, t) => Port(lex, host, t)
  }

  function Negotiate(cfg: Config, lex: Lexicon, s: Link): Phase<Target> {
    match Greeting(cfg, s)
    case Stop(t) => Stop(t)
    case Go(auth, t) =>
      if auth then
        match Authenticate(cfg, t)
        case Stop(u) => Stop(u)
        case Go(_, u) => Request(lex, u)
      else Request(lex, t)
  }

  // ----- The routine -----

  class Client {
    const conn: Framing.Conn
    var budget: nat

    constructor (conn: Framing.Conn, budget: nat)
      ensures this.conn == conn && this.budget == budget
    {
      this.conn := conn;
      this.budget := budget;
    }

    ghost function Current(): Link
      reads this, conn
    {
      Link(conn.input, conn.output, budget)
    }

    method Read(n: nat) returns (r: Option<seq<byte>>)
      modifies conn
      ensures Current() == old(Current()).Skip(n)
      ensures r == if n <= |old(conn.input)| then Some(old(conn.input)[..n]) else None
    {
      r := conn.ReadFull(n);
    }

    method Write(bytes: seq<byte>) returns (ok: bool)
      modifies this`budget, conn
      ensures ok == (old(budget) > 0)
      ensures Current() == old(Current()).Put(bytes)
    {
      ok := budget > 0;
      if ok {
        var _ := conn.Write(bytes, |bytes|);
        budget := budget - 1;
      }
    }

    /** Phase 1 of NegotiateSOCKS5; the result says whether credentials must follow. */
    method ReadGreeting(cfg: Config) returns (r: Option<bool>)
      modifies this`budget, conn
      ensures match Greeting(cfg, old(Current()))
              case Go(auth, s) => r == Some(auth) && Current() == s
              case Stop(s) => r == None && Current() == s
    {
      var hdr := Read(2);
      if hdr.None? || hdr.value[0] != VERSION {
        return None;
      }
      var nMethods := hdr.value[1];
      if nMethods == 0 {
        var _ := Write([VERSION, AUTH_NO_ACCEPT]);
        return None;
      }
      var methods := Read(nMethods);
      if methods.None? {
        return None;
      }
      var authRequired := cfg.AuthRequired();
      var selected := AUTH_NO_ACCEPT;
      for i := 0 to nMethods
        invariant selected == AUTH_NO_ACCEPT && cfg.Method() !in methods.value[..i]
      {
        var m := methods.value[i];
        if authRequired && m == AUTH_PASSWORD {
          selected := AUTH_PASSWORD;
          break;
        }
        if !authRequired && m == AUTH_NONE {
          selected := AUTH_NONE;
          break;
        }
      }
      assert selected == if cfg.Method() in methods.value then cfg.Method() else AUTH_NO_ACCEPT by {
        assert methods.value[..nMethods] == methods.value;
      }
      if selected == AUTH_NO_ACCEPT {
        var _ := Write([VERSION, AUTH_NO_ACCEPT]);
        return None;
      }
      var ok := Write([VERSION, selected]);
      r := if ok then Some(authRequired) else None;
    }

    method ReadCounted() returns (r: Option<seq<byte>>)
      modifies conn
      ensures match Counted(old(Current()))
              case Go(value, s) => r == Some(value) && Current() == s
              case Stop(s) => r == None && Current() == s
    {
      var n := Read(1);
      if n.None? {
        return None;
      }
      r := Read(n.value[0]);
    }

    /** Phase 2: the username/password sub-negotiation. */
    method ReadCredentials(cfg: Config) returns (ok: bool)
      modifies this`budget, conn
      ensures match Authenticate(cfg, old(Current()))
              case Go(_, s) => ok && Current() == s
              case Stop(s) => !ok && Current() == s
    {
      var hdr := Read(2);
      if hdr.None? {
        return false;
      }
      if hdr.value[0] != AUTH_VERSION {
        var _ := Write([AUTH_VERSION, 1]);
        return false;
      }
      var user := Read(hdr.value[1]);
      if user.None? {
        return false;
      }
      var pass := ReadCounted();
      if pass.None? {
        return false;
      }
      if user.value != cfg.user || pass.value != cfg.pass {
        var _ := Write([AUTH_VERSION, 1]);
        return false;
      }
      ok := Write([AUTH_VERSION, 0]);
    }

    method ReadAddress(atyp: byte) returns (r: Option<Host>)
      modifies this`budget, conn
      ensures match Address(atyp, old(Current()))
              case Go(host, s) => r == Some(host) && Current() == s
              case Stop(s) => r == None && Current() == s
    {
      if atyp == ATYP_IPV4 {
        var octets := Read(4);
        r := if octets.None? then None else Some(IPv4(octets.value));
      } else if atyp == ATYP_DOMAIN {
        var name := ReadCounted();
        r := if name.None? then None else Some(Domain(name.value));
      } else if atyp == ATYP_IPV6 {
        var octets := Read(16);
        r := if octets.None? then None else Some(IPv6(octets.value));
      } else {
        var _ := Write(Reply(ADDR_NOT_SUPPORTED));
        r := None;
      }
    }

    /** Phase 3: the CONNECT request. */
    method ReadRequest(lex: Lexicon) returns (r: Option<Target>)
      modifies this`budget, conn
      ensures match Request(lex, old(Current()))
              case Go(target, s) => r == Some(target) && Current() == s
              case Stop(s) => r == None && Current() == s
    {
      var hdr := Read(4);
      if hdr.None? {
        return None;
      }
      if hdr.value[0] != VERSION {
        var _ := Write(Reply(GENERAL_FAILURE));
        return None;
      }
      if hdr.value[1] != CMD_CONNECT {
        var _ := Write(Reply(CMD_NOT_SUPPORTED));
        return None;
      }
      var host := ReadAddress(hdr.value[3]);
      if host.None? {
        return None;
      }
      var port := Read(2);
      if port.None? {
        return None;
      }
      var target := Target(host.value, U16(port.value[0], port.value[1]));
      if !ValidTarget(lex, target) {
        var _ := Write(Reply(GENERAL_FAILURE));
        return None;
      }
      r := Some(target);
    }

    method NegotiateSOCKS5(cfg: Config, lex: Lexicon) returns (r: Option<Target>)
      modifies this`budget, conn
      ensures match Negotiate(cfg, lex, old(Current()))
              case Go(target, s) => r == Some(target) && Current() == s
              case Stop(s) => r == None && Current() == s
    {
      var auth := ReadGreeting(cfg);
      if auth.None? {
        return None;
      }
      if auth.value {
        var ok := ReadCredentials(cfg);
        if !ok {
          return None;
        }
      }
      r := ReadRequest(lex);
    }
  }

  // ----- The conversation, message by message -----

  /** What a client has to say: the methods it offers, its credentials (sent if asked for) and its request. */
  datatype Hello = Hello(methods: seq<byte>, user: seq<byte>, pass: seq<byte>, cmd: byte, rsv: byte, target: Target)

  predicate AddressFits(host: Host) {
    match host
    case IPv4(octets) => |octets| == 4
    case Domain(name) => |name| < 256
    case IPv6(octets) => |octets| == 16
  }

  predicate Encodable(h: Hello) {
    && 0 < |h.methods| < 256 && |h.user| < 256 && |h.pass| < 256
    && AddressFits(h.target.host)
    && h.target.port < 0x1_0000
  }

  function EncodeCounted(s: seq<byte>): seq<byte>
    requires |s| < 256
  {
    [|s|] + s
  }

  function EncodeGreeting(h: Hello): seq<byte>
    requires Encodable(h)
  {
    [VERSION] + EncodeCounted(h.methods)
  }

  function EncodeCredentials(h: Hello): seq<byte>
    requires Encodable(h)
  {
    [AUTH_VERSION] + EncodeCounted(h.user) + EncodeCounted(h.pass)
  }

  function EncodeHost(host: Host): seq<byte>
    requires host.Domain? ==> |host.name| < 256
  {
    match host
    case IPv4(octets) => octets
    case Domain(name) => EncodeCounted(name)
    case IPv6(octets) => octets
  }

  function AddressType(host: Host): byte {
    match host
    case IPv4(_) => ATYP_IPV4
    case Domain(_) => ATYP_DOMAIN
    case IPv6(_) => ATYP_IPV6
  }

  function EncodeRequest(h: Hello): seq<byte>
    requires Encodable(h)
  {
    [VERSION, h.cmd, h.rsv, AddressType(h.target.host)] + EncodeHost(h.target.host) + PutU16(h.target.port)
  }

  function Encode(cfg: Config, h: Hello): seq<byte>
    requires Encodable(h)
  {
    EncodeGreeting(h) + ((if cfg.AuthRequired() then EncodeCredentials(h) else []) + EncodeRequest(h))
  }

  predicate Matches(cfg: Config, h: Hello) {
    cfg.AuthRequired() ==> h.user == cfg.user && h.pass == cfg.pass
  }

  /** The server is to grant this client its target. */
  predicate Granted(cfg: Config, lex: Lexicon, h: Hello) {
    cfg.Method() in h.methods && Matches(cfg, h) && h.cmd == CMD_CONNECT && ValidTarget(lex, h.target)
  }

  /** The answer to the request itself; a good one is left to the caller. */
  function Verdict(lex: Lexicon, h: Hello): seq<byte> {
    if h.cmd != CMD_CONNECT then Reply(CMD_NOT_SUPPORTED)
    else if !ValidTarget(lex, h.target) then Reply(GENERAL_FAILURE)
    else []
  }

  /** Everything the two RFCs make the server answer before the final reply. */
  function Answers(cfg: Config, lex: Lexicon, h: Hello): seq<byte> {
    if cfg.Method() !in h.methods then [VERSION, AUTH_NO_ACCEPT]
    else if !cfg.AuthRequired() then [VERSION, AUTH_NONE] + Verdict(lex, h)
    else if !Matches(cfg, h) then [VERSION, AUTH_PASSWORD] + [AUTH_VERSION, 1]
    else [VERSION, AUTH_PASSWORD] + [AUTH_VERSION, 0] + Verdict(lex, h)
  }

  lemma Regroup(a: seq<byte>, b: seq<byte>, c: seq<byte>, d: seq<byte>)
    ensures a + (b + (c + d)) == a + b + c + d
    ensures a + (b + (c + d)) == a + (b + c) + d
  {
  }

  lemma SkipPrefix(p: seq<byte>, rest: seq<byte>, output: seq<byte>, budget: nat)
    ensures Link(p + rest, output, budget).Skip(|p|) == Link(rest, output, budget)
  {
  }

  lemma OctetsOf(s: seq<byte>, rest: seq<byte>, output: seq<byte>, budget: nat)
    ensures Octets(|s|, Link(s + rest, output, budget)) == Go(s, Link(rest, output, budget))
  {
    assert (s + rest)[..|s|] == s;
    SkipPrefix(s, rest, output, budget);
  }

  lemma CountedOf(s: seq<byte>, rest: seq<byte>, output: seq<byte>, budget: nat)
    requires |s| < 256
    ensures Counted(Link(EncodeCounted(s) + rest, output, budget)) == Go(s, Link(rest, output, budget))
  {
    assert (EncodeCounted(s) + rest)[1..] == s + rest;
    OctetsOf(s, rest, output, budget);
  }

  lemma GreetingOf(cfg: Config, h: Hello, rest: seq<byte>, budget: nat)
    requires Encodable(h)
    ensures Greeting(cfg, Link(EncodeGreeting(h) + rest, [], budget)) ==
            if cfg.Method() !in h.methods then Stop(Link(rest, [], budget).Put([VERSION, AUTH_NO_ACCEPT]))
            else if budget == 0 then Stop(Link(rest, [], 0))
            else Go(cfg.AuthRequired(), Link(rest, [VERSION, cfg.Method()], budget - 1))
  {
    var l := Link(EncodeGreeting(h) + rest, [], budget);
    assert l.input[2..] == h.methods + rest;
    assert (h.methods + rest)[..|h.methods|] == h.methods;
    SkipPrefix(h.methods, rest, [], budget);
    assert [] + [VERSION, cfg.Method()] == [VERSION, cfg.Method()];
  }

  /** The outcome of checking the credentials that were read up to done. */
  function Checked(cfg: Config, h: Hello, done: Link): Phase<()> {
    if h.user != cfg.user || h.pass != cfg.pass then Stop(done.Put([AUTH_VERSION, 1]))
    else if done.budget == 0 then Stop(done)
    else Go((), done.Put([AUTH_VERSION, 0]))
  }

  lemma CredentialsOf(cfg: Config, h: Hello, rest: seq<byte>, output: seq<byte>, budget: nat)
    requires Encodable(h)
    ensures Authenticate(cfg, Link(EncodeCredentials(h) + rest, output, budget)) ==
            Checked(cfg, h, Link(rest, output, budget))
  {
    var l := Link(EncodeCredentials(h) + rest, output, budget);
    var tail := EncodeCounted(h.pass) + rest;
    assert l.input[1] == |h.user| && l.input[2..] == h.user + tail;
    OctetsOf(h.user, tail, output, budget);
    CountedOf(h.pass, rest, output, budget);
  }

  lemma AddressOf(h: Hello, rest: seq<byte>, output: seq<byte>, budget: nat)
    requires Encodable(h)
    ensures var host := h.target.host;
            Address(AddressType(host), Link(EncodeHost(host) + rest, output, budget)) ==
            Go(host, Link(rest, output, budget))
  {
    var host := h.target.host;
    match host
    case Domain(name) => CountedOf(name, rest, output, budget);
    case _ =>
      assert (host.octets + rest)[..|host.octets|] == host.octets;
      SkipPrefix(host.octets, rest, output, budget);
  }

  /** The port phase, on a port in the two octets w. */
  lemma PortIn(lex: Lexicon, t: Target, w: seq<byte>, rest: seq<byte>, output: seq<byte>, budget: nat)
    requires |w| == 2 && U16(w[0], w[1]) == t.port
    ensures Port(lex, t.host, Link(w + rest, output, budget)) ==
            if ValidTarget(lex, t) then Go(t, Link(rest, output, budget))
            else Stop(Link(rest, output, budget).Put(Reply(GENERAL_FAILURE)))
  {
    SkipPrefix(w, rest, output, budget);
    assert (w + rest)[0] == w[0] && (w + rest)[1] == w[1];
  }

  lemma RequestRead(lex: Lexicon, h: Hello, rest: seq<byte>, output: seq<byte>, budget: nat)
    requires Encodable(h) && h.cmd == CMD_CONNECT
    ensures Request(lex, Link(EncodeRequest(h) + rest, output, budget)) ==
            if ValidTarget(lex, h.target) then Go(h.target, Link(rest, output, budget))
            else Stop(Link(rest, output, budget).Put(Reply(GENERAL_FAILURE)))
  {
    var tail := PutU16(h.target.port) + rest;
    assert (EncodeRequest(h) + rest)[4..] == EncodeHost(h.target.host) + tail;
    AddressOf(h, tail, output, budget);
    U16RoundTrip(h.target.port);
    PortIn(lex, h.target, PutU16(h.target.port), rest, output, budget);
  }

  /** What the request phase does with an encoded request that is followed by rest. */
  predicate Replied(lex: Lexicon, h: Hello, rest: seq<byte>, output: seq<byte>, budget: nat, r: Phase<Target>) {
    && (budget > 0 ==> r.link.output == output + Verdict(lex, h))
    && if h.cmd == CMD_CONNECT && ValidTarget(lex, h.target)
       then r == Go(h.target, Link(rest, output + Verdict(lex, h), budget))
       else r.Stop?
  }

  lemma RequestOf(lex: Lexicon, h: Hello, rest: seq<byte>, output: seq<byte>, budget: nat)
    requires Encodable(h)
    ensures Replied(lex, h, rest, output, budget, Request(lex, Link(EncodeRequest(h) + rest, output, budget)))
  {
    if h.cmd == CMD_CONNECT {
      RequestRead(lex, h, rest, output, budget);
      assert output + [] == output;
    }
  }

  /** What Conversation promises of one negotiation. */
  predicate Answered(cfg: Config, lex: Lexicon, h: Hello, rest: seq<byte>, budget: nat, r: Phase<Target>) {
    && (budget >= 3 ==> r.link.output == Answers(cfg, lex, h))
    && (r.Go? <==> Granted(cfg, lex, h) && budget >= if cfg.AuthRequired() then 2 else 1)
    && (r.Go? ==> r.value == h.target && r.link.input == rest && r.link.output == Answers(cfg, lex, h))
  }

  lemma RepliedPlain(cfg: Config, lex: Lexicon, h: Hello, rest: seq<byte>, budget: nat, r: Phase<Target>)
    requires cfg.Method() in h.methods && !cfg.AuthRequired() && budget > 0
    requires Replied(lex, h, rest, [VERSION, cfg.Method()], budget - 1, r)
    ensures Answered(cfg, lex, h, rest, budget, r)
  {
  }

  lemma RepliedAuth(cfg: Config, lex: Lexicon, h: Hello, rest: seq<byte>, budget: nat, r: Phase<Target>)
    requires cfg.Method() in h.methods && cfg.AuthRequired() && Matches(cfg, h) && budget > 1
    requires Replied(lex, h, rest, [VERSION, cfg.Method()] + [AUTH_VERSION, 0], budget - 1 - 1, r)
    ensures Answered(cfg, lex, h, rest, budget, r)
  {
  }

  lemma WithoutCredentials(cfg: Config, lex: Lexicon, h: Hello, rest: seq<byte>, budget: nat)
    requires Encodable(h) && cfg.Method() in h.methods && !cfg.AuthRequired() && budget > 0
    ensures Answered(cfg, lex, h, rest, budget,
                     Request(lex, Link(EncodeRequest(h) + rest, [VERSION, cfg.Method()], budget - 1)))
  {
    var answers := [VERSION, cfg.Method()];
    RequestOf(lex, h, rest, answers, budget - 1);
    RepliedPlain(cfg, lex, h, rest, budget, Request(lex, Link(EncodeRequest(h) + rest, answers, budget - 1)));
  }

  lemma WithCredentials(cfg: Config, lex: Lexicon, h: Hello, rest: seq<byte>, budget: nat)
    requires Encodable(h) && cfg.Method() in h.methods && cfg.AuthRequired() && Matches(cfg, h) && budget > 1
    ensures var answers := [VERSION, cfg.Method()] + [AUTH_VERSION, 0];
            Answered(cfg, lex, h, rest, budget, Request(lex, Link(EncodeRequest(h) + rest, answers, budget - 1 - 1)))
  {
    var answers := [VERSION, cfg.Method()] + [AUTH_VERSION, 0];
    RequestOf(lex, h, rest, answers, budget - 1 - 1);
    RepliedAuth(cfg, lex, h, rest, budget, Request(lex, Link(EncodeRequest(h) + rest, answers, budget - 1 - 1)));
  }

  lemma Unauthenticated(cfg: Config, lex: Lexicon, s: Link, t: Link)
    requires Greeting(cfg, s) == Go(false, t)
    ensures Negotiate(cfg, lex, s) == Request(lex, t)
  {
  }

  lemma Authenticated(cfg: Config, lex: Lexicon, s: Link, t: Link, u: Link)
    requires Greeting(cfg, s) == Go(true, t)
    ensures Authenticate(cfg, t) == Go((), u) ==> Negotiate(cfg, lex, s) == Request(lex, u)
    ensures Authenticate(cfg, t) == Stop(u) ==> Negotiate(cfg, lex, s) == Stop(u)
  {
  }

  lemma NoCommonMethod(cfg: Config, lex: Lexicon, h: Hello, tail: seq<byte>, rest: seq<byte>, budget: nat)
    requires Encodable(h) && (budget == 0 || cfg.Method() !in h.methods)
    ensures Answered(cfg, lex, h, rest, budget, Negotiate(cfg, lex, Link(EncodeGreeting(h) + tail, [], budget)))
  {
    GreetingOf(cfg, h, tail, budget);
    assert [] + [VERSION, AUTH_NO_ACCEPT] == [VERSION, AUTH_NO_ACCEPT];
  }

  lemma PlainConversation(cfg: Config, lex: Lexicon, h: Hello, rest: seq<byte>, budget: nat)
    requires Encodable(h) && cfg.Method() in h.methods && budget > 0 && !cfg.AuthRequired()
    ensures Answered(cfg, lex, h, rest, budget,
                     Negotiate(cfg, lex, Link(EncodeGreeting(h) + (EncodeRequest(h) + rest), [], budget)))
  {
    var tail := EncodeRequest(h) + rest;
    GreetingOf(cfg, h, tail, budget);
    Unauthenticated(cfg, lex, Link(EncodeGreeting(h) + tail, [], budget),
                    Link(tail, [VERSION, cfg.Method()], budget - 1));
    WithoutCredentials(cfg, lex, h, rest, budget);
  }

  lemma CredentialsRefused(cfg: Config, lex: Lexicon, h: Hello, rest: seq<byte>, budget: nat, s: Link, t: Link, u: Link)
    requires cfg.Method() in h.methods && cfg.AuthRequired()
    requires Greeting(cfg, s) == Go(true, t) && Authenticate(cfg, t) == Stop(u)
    requires budget <= 1 || (!Matches(cfg, h) && u.output == [VERSION, AUTH_PASSWORD] + [AUTH_VERSION, 1])
    ensures Answered(cfg, lex, h, rest, budget, Negotiate(cfg, lex, s))
  {
    Authenticated(cfg, lex, s, t, u);
  }

  lemma CredentialsAccepted(cfg: Config, lex: Lexicon, h: Hello, rest: seq<byte>, budget: nat, s: Link, t: Link)
    requires Encodable(h) && cfg.Method() in h.methods && budget > 1 && cfg.AuthRequired() && Matches(cfg, h)
    requires Greeting(cfg, s) == Go(true, t)
    requires Authenticate(cfg, t) ==
             Go((), Link(EncodeRequest(h) + rest, [VERSION, cfg.Method()] + [AUTH_VERSION, 0], budget - 1 - 1))
    ensures Answered(cfg, lex, h, rest, budget, Negotiate(cfg, lex, s))
  {
    Authenticated(cfg, lex, s, t, Authenticate(cfg, t).link);
    WithCredentials(cfg, lex, h, rest, budget);
  }

  lemma CredentialsSent(cfg: Config, lex: Lexicon, h: Hello, rest: seq<byte>, budget: nat, s: Link, t: Link, done: Link)
    requires Encodable(h) && cfg.Method() in h.methods && budget > 0 && cfg.AuthRequired()
    requires Greeting(cfg, s) == Go(true, t)
    requires done == Link(EncodeRequest(h) + rest, [VERSION, cfg.Method()], budget - 1)
    requires Authenticate(cfg, t) == Checked(cfg, h, done)
    ensures Answered(cfg, lex, h, rest, budget, Negotiate(cfg, lex, s))
  {
    if budget > 1 && Matches(cfg, h) {
      CredentialsAccepted(cfg, lex, h, rest, budget, s, t);
    } else {
      CredentialsRefused(cfg, lex, h, rest, budget, s, t, Checked(cfg, h, done).link);
    }
  }

  lemma GreetingAccepted(cfg: Config, h: Hello, tail: seq<byte>, budget: nat)
    requires Encodable(h) && cfg.Method() in h.methods && budget > 0
    ensures Greeting(cfg, Link(EncodeGreeting(h) + tail, [], budget)) ==
            Go(cfg.AuthRequired(), Link(tail, [VERSION, cfg.Method()], budget - 1))
  {
    GreetingOf(cfg, h, tail, budget);
  }

  /** The conversation from the credentials on. */
  lemma AuthFrom(cfg: Config, lex: Lexicon, h: Hello, rest: seq<byte>, budget: nat, s: Link, t: Link, done: Link)
    requires Encodable(h) && cfg.Method() in h.methods && budget > 0 && cfg.AuthRequired()
    requires Greeting(cfg, s) == Go(true, t)
    requires done == Link(EncodeRequest(h) + rest, [VERSION, cfg.Method()], budget - 1)
    requires t == Link(EncodeCredentials(h) + done.input, done.output, done.budget)
    ensures Answered(cfg, lex, h, rest, budget, Negotiate(cfg, lex, s))
  {
    CredentialsOf(cfg, h, done.input, done.output, done.budget);
    CredentialsSent(cfg, lex, h, rest, budget, s, t, done);
  }

  lemma AuthConversation(cfg: Config, lex: Lexicon, h: Hello, rest: seq<byte>, budget: nat)
    requires Encodable(h) && cfg.Method() in h.methods && budget > 0 && cfg.AuthRequired()
    ensures var tail := EncodeCredentials(h) + (EncodeRequest(h) + rest);
            Answered(cfg, lex, h, rest, budget, Negotiate(cfg, lex, Link(EncodeGreeting(h) + tail, [], budget)))
  {
    var hi, request := [VERSION, cfg.Method()], EncodeRequest(h) + rest;
    var tail := EncodeCredentials(h) + request;
    GreetingAccepted(cfg, h, tail, budget);
    AuthFrom(cfg, lex, h, rest, budget, Link(EncodeGreeting(h) + tail, [], budget),
             Link(tail, hi, budget - 1), Link(request, hi, budget - 1));
  }

  /** Whatever an encodable client offers, it is answered as the RFCs say; and it gets its target, with
      exactly the trailing octets unread, if and only if it is to be granted and the answers can be written. */
  lemma Conversation(cfg: Config, lex: Lexicon, h: Hello, rest: seq<byte>, budget: nat)
    requires Encodable(h)
    ensures Answered(cfg, lex, h, rest, budget, Negotiate(cfg, lex, Link(Encode(cfg, h) + rest, [], budget)))
  {
    var auth := if cfg.AuthRequired() then EncodeCredentials(h) else [];
    Regroup(EncodeGreeting(h), auth, EncodeRequest(h), rest);
    if budget == 0 || cfg.Method() !in h.methods {
      NoCommonMethod(cfg, lex, h, auth + (EncodeRequest(h) + rest), rest, budget);
    } else if cfg.AuthRequired() {
      AuthConversation(cfg, lex, h, rest, budget);
    } else {
      assert auth + (EncodeRequest(h) + rest) == EncodeRequest(h) + rest;
      PlainConversation(cfg, lex, h, rest, budget);
    }
  }

  // ----- Only such conversations succeed -----

  lemma CountedFrom(s: Link)
    requires Counted(s).Go?
    ensures var r := Counted(s); |r.value| < 256 && s.input == EncodeCounted(r.value) + r.link.input
    ensures Counted(s).link.budget == s.budget && Counted(s).link.output == s.output
  {
  }

  lemma GreetingFrom(cfg: Config, s: Link) returns (methods: seq<byte>)
    requires Greeting(cfg, s).Go?
    ensures 0 < |methods| < 256 && cfg.Method() in methods
    ensures s.input == [VERSION] + EncodeCounted(methods) + Greeting(cfg, s).link.input
    ensures Greeting(cfg, s) == Go(cfg.AuthRequired(), Greeting(cfg, s).link)
  {
    var tail := s.input[2..];
    methods := tail[..s.input[1]];
    assert tail == methods + Greeting(cfg, s).link.input;
    assert s.input == [VERSION] + ([|methods|] + tail);
    Regroup([VERSION], [|methods|], methods, Greeting(cfg, s).link.input);
  }

  lemma OctetsFrom(n: nat, s: Link)
    requires Octets(n, s).Go?
    ensures |Octets(n, s).value| == n && s.input == Octets(n, s).value + Octets(n, s).link.input
  {
  }

  lemma CredentialsFrom(cfg: Config, s: Link)
    requires Authenticate(cfg, s).Go?
    ensures |cfg.user| < 256 && |cfg.pass| < 256
    ensures s.input ==
            [AUTH_VERSION] + EncodeCounted(cfg.user) + EncodeCounted(cfg.pass) + Authenticate(cfg, s).link.input
  {
    var n, t := s.input[1], s.Skip(2);
    OctetsFrom(n, t);
    var u := Octets(n, t).link;
    CountedFrom(u);
    var rest := Counted(u).link.input;
    assert s.input == [AUTH_VERSION] + ([n] + t.input);
    var tail := EncodeCounted(cfg.pass) + rest;
    assert t.input == cfg.user + tail;
    assert [n] + (cfg.user + tail) == EncodeCounted(cfg.user) + tail;
    Regroup([AUTH_VERSION], EncodeCounted(cfg.user), EncodeCounted(cfg.pass), rest);
  }

  lemma AddressFrom(atyp: byte, s: Link)
    requires Address(atyp, s).Go?
    ensures var r := Address(atyp, s);
            && AddressFits(r.value) && AddressType(r.value) == atyp && s.input == EncodeHost(r.value) + r.link.input
  {
    if atyp == ATYP_DOMAIN { CountedFrom(s); }
  }

  lemma PortOctets(a: byte, b: byte)
    ensures PutU16(U16(a, b)) == [a, b]
  {
  }

  lemma RequestOctets(lex: Lexicon, s: Link)
    requires Request(lex, s).Go?
    ensures var r := Request(lex, s);
            && |s.input| >= 4 && s.input[..4] == [VERSION, CMD_CONNECT, s.input[2], AddressType(r.value.host)]
            && AddressFits(r.value.host) && r.value.port < 0x1_0000 && ValidTarget(lex, r.value)
            && s.input[4..] == EncodeHost(r.value.host) + (PutU16(r.value.port) + r.link.input)
  {
    var t := Address(s.input[3], s.Skip(4)).link;
    AddressFrom(s.input[3], s.Skip(4));
    PortOctets(t.input[0], t.input[1]);
    assert t.input == [t.input[0], t.input[1]] + t.input[2..];
  }

  lemma RequestFrom(lex: Lexicon, s: Link, methods: seq<byte>, user: seq<byte>, pass: seq<byte>) returns (h: Hello)
    requires Request(lex, s).Go?
    requires 0 < |methods| < 256 && |user| < 256 && |pass| < 256
    ensures h.methods == methods && h.user == user && h.pass == pass && h.cmd == CMD_CONNECT
    ensures Encodable(h) && ValidTarget(lex, h.target) && h.target == Request(lex, s).value
    ensures s.input == EncodeRequest(h) + Request(lex, s).link.input
  {
    RequestOctets(lex, s);
    var target, rest := Request(lex, s).value, Request(lex, s).link.input;
    h := Hello(methods, user, pass, CMD_CONNECT, s.input[2], target);
    Regroup(s.input[..4], EncodeHost(target.host), PutU16(target.port), rest);
    assert s.input == s.input[..4] + s.input[4..];
  }

  /** A negotiation that succeeds has read the encoding of a client that is to be granted that target,
      and nothing more; in particular its credentials matched if any are configured. */
  lemma OnlyGranted(cfg: Config, lex: Lexicon, s: Link) returns (h: Hello)
    requires Negotiate(cfg, lex, s).Go?
    ensures Encodable(h) && Granted(cfg, lex, h)
    ensures Negotiate(cfg, lex, s).value == h.target
    ensures s.input == Encode(cfg, h) + Negotiate(cfg, lex, s).link.input
  {
    var t := Greeting(cfg, s).link;
    var methods := GreetingFrom(cfg, s);
    if cfg.AuthRequired() {
      var u := Authenticate(cfg, t).link;
      CredentialsFrom(cfg, t);
      Authenticated(cfg, lex, s, t, u);
      h := RequestFrom(lex, u, methods, cfg.user, cfg.pass);
      Regroup(EncodeGreeting(h), EncodeCredentials(h), EncodeRequest(h), Request(lex, u).link.input);
    } else {
      Unauthenticated(cfg, lex, s, t);
      h := RequestFrom(lex, t, methods, [], []);
      assert [] + EncodeRequest(h) == EncodeRequest(h);
    }
  }

  // ----- Domain names -----

  function Join(labels: seq<seq<byte>>): seq<byte>
    requires |labels| > 0
  {
    if |labels| == 1 then labels[0] else labels[0] + [DOT] + Join(labels[1..])
  }

  lemma {:induction false} JoinLabels(name: seq<byte>)
    ensures Join(Labels(name)) == name
    ensures forall piece | piece in Labels(name) :: DOT !in piece
  {
    if name != [] {
      JoinLabels(name[1..]);
      var ls := Labels(name[1..]);
      assert name == [name[0]] + name[1..];
      if name[0] == DOT {
        assert ([[]] + ls)[1..] == ls;
      } else {
        assert ([[name[0]] + ls[0]] + ls[1..])[1..] == ls[1..];
      }
    }
  }

  lemma {:induction false} LabelsJoin(labels: seq<seq<byte>>)
    requires |labels| > 0 && forall piece | piece in labels :: DOT !in piece
    ensures Labels(Join(labels)) == labels
    decreases |labels|, |labels[0]|
  {
    var name := Join(labels);
    if labels[0] != [] {
      var shorter := [labels[0][1..]] + labels[1..];
      assert shorter[1..] == labels[1..];
      forall piece | piece in shorter ensures DOT !in piece {
        if piece == shorter[0] { assert DOT !in labels[0]; } else { assert piece in labels[1..]; }
      }
      LabelsJoin(shorter);
      assert name[1..] == Join(shorter);
      assert name[0] == labels[0][0] && DOT !in labels[0];
      assert [name[0]] + shorter[0] == labels[0];
    } else if |labels| > 1 {
      LabelsJoin(labels[1..]);
      assert name[1..] == Join(labels[1..]);
    }
  }

  /** A label of a host name (section 2.3.1 of RFC 1035): letters, digits and hyphens, the latter not at the ends. */
  predicate HostLabel(piece: seq<byte>) {
    && 1 <= |piece| <= 63 && piece[0] != 45 && piece[|piece| - 1] != 45
    && forall c | c in piece :: c == 45 || 48 <= c <= 57 || 65 <= c <= 90 || 97 <= c <= 122
  }

  lemma LabelIff(piece: seq<byte>)
    ensures ValidLabel(piece) <==> HostLabel(piece)
    ensures HostLabel(piece) ==> DOT !in piece
  {
    if ValidLabel(piece) {
      assert IsAlphaNum(piece[0]) && IsAlphaNum(piece[|piece| - 1]);
    }
    if HostLabel(piece) {
      forall i | 0 <= i < |piece|
        ensures IsAlphaNum(piece[i]) || (piece[i] == HYPHEN && i != 0 && i != |piece| - 1)
      {
        assert piece[i] in piece;
      }
    }
  }

  /** An ASCII name that is no IP literal is valid exactly if it is at most 253 octets long and consists of host name
      labels with dots between them. */
  lemma ValidDomainIff(lex: Lexicon, name: seq<byte>)
    requires !lex.isIpLiteral(name) && forall c | c in name :: c < 128
    ensures ValidDomain(lex, name) <==>
            && |name| <= 253
            && exists labels: seq<seq<byte>> ::
                 |labels| > 0 && Join(labels) == name && forall l | l in labels :: HostLabel(l)
  {
    JoinLabels(name);
    forall l: seq<byte> ensures ValidLabel(l) <==> HostLabel(l) { LabelIff(l); }
    if exists labels: seq<seq<byte>> ::
         |labels| > 0 && Join(labels) == name && forall l | l in labels :: HostLabel(l)
    {
      var labels: seq<seq<byte>> :|
        |labels| > 0 && Join(labels) == name && forall l | l in labels :: HostLabel(l);
      forall l | l in labels ensures DOT !in l { LabelIff(l); }
      LabelsJoin(labels);
      if name == [] { assert [] in labels; }
    }
  }

  /** An IP literal is always valid, another name with non-ASCII octets exactly if the library lets it through; and
      port zero is not. */
  lemma OtherTargets(lex: Lexicon, name: seq<byte>, host: Host)
    ensures name != [] && lex.isIpLiteral(name) ==> ValidDomain(lex, name)
    ensures !lex.isIpLiteral(name) && (exists c | c in name :: c >= 128) ==>
              (ValidDomain(lex, name) <==> lex.admitsNonAscii(name))
    ensures !ValidDomain(lex, []) && !ValidTarget(lex, Target(host, 0))
  {
  }

  // ----- The octets themselves -----

  function AddressOctets(host: Host): seq<byte>
    requires AddressFits(host)
  {
    match host
    case IPv4(octets) => [1] + octets
    case Domain(name) => [3, |name|] + name
    case IPv6(octets) => [4] + octets
  }

  /** What a client sends, octet by octet (sections 3 to 5 of RFC 1928, section 2 of RFC 1929). */
  lemma OnTheWire(cfg: Config, h: Hello)
    requires Encodable(h)
    ensures EncodeGreeting(h) == [5, |h.methods|] + h.methods
    ensures EncodeCredentials(h) == [1, |h.user|] + h.user + [|h.pass|] + h.pass
    ensures EncodeRequest(h)
            == [5, h.cmd, h.rsv] + AddressOctets(h.target.host) + [h.target.port / 256, h.target.port % 256]
  {
  }

  /** What the server answers, octet by octet: the method it takes (0, or 2 with credentials, or 255 for none), the
      status of the credentials, and replies 7 and 1 to a command other than 1 and to an invalid target. */
  lemma AnswersOnTheWire(cfg: Config, lex: Lexicon, h: Hello)
    ensures var auth := cfg.user != [] && cfg.pass != [];
            var want: byte := if auth then 2 else 0;
            Answers(cfg, lex, h) ==
            if want !in h.methods then [5, 255]
            else if auth && (h.user != cfg.user || h.pass != cfg.pass) then [5, 2, 1, 1]
            else [5, want] + (if auth then [1, 0] else [])
                 + (if h.cmd != 1 then [5, 7, 0, 1, 0, 0, 0, 0, 0, 0]
                    else if !ValidTarget(lex, h.target) then [5, 1, 0, 1, 0, 0, 0, 0, 0, 0]
                    else [])
  {
  }

  /** The output of a negotiation that has met a defect and could still write. */
  predicate Refuses(cfg: Config, lex: Lexicon, s: Link, output: seq<byte>) {
    var r := Negotiate(cfg, lex, s);
    r.Stop? && r.link.output == output
  }

  /** A greeting of another version is not answered; one that offers nothing gets 255. */
  lemma BadGreeting(cfg: Config, lex: Lexicon, s: Link)
    requires |s.input| >= 2 && s.budget > 0
    ensures s.input[0] != 5 ==> Refuses(cfg, lex, s, s.output)
    ensures s.input[..2] == [5, 0] ==> Refuses(cfg, lex, s, s.output + [5, 255])
  {
    assert s.input[..2] == [s.input[0], s.input[1]];
  }

  /** A client's opening octets. */
  function Opens(methods: seq<byte>, tail: seq<byte>, budget: nat): Link
    requires |methods| < 256
  {
    Link([5, |methods|] + methods + tail, [], budget)
  }

  /** A greeting that offers what the server wants. */
  lemma Greeted(cfg: Config, methods: seq<byte>, tail: seq<byte>, budget: nat, auth: bool, want: byte)
    requires 0 < |methods| < 256 && want in methods && budget > 0
    requires auth == (cfg.user != [] && cfg.pass != []) && want == if auth then 2 else 0
    ensures Greeting(cfg, Opens(methods, tail, budget)) == Go(auth, Link(tail, [5, want], budget - 1))
  {
    var h := Hello(methods, [], [], 1, 0, Target(IPv4([0, 0, 0, 0]), 1));
    assert EncodeGreeting(h) == [5, |methods|] + methods;
    GreetingAccepted(cfg, h, tail, budget);
  }

  lemma StopsAtCredentials(cfg: Config, lex: Lexicon, s: Link, t: Link, u: Link)
    requires Greeting(cfg, s) == Go(true, t) && Authenticate(cfg, t) == Stop(u)
    ensures Refuses(cfg, lex, s, u.output)
  {
  }

  lemma StopsAtRequest(cfg: Config, lex: Lexicon, s: Link, t: Link, u: Link)
    requires Greeting(cfg, s) == Go(false, t) && Request(lex, t) == Stop(u)
    ensures Refuses(cfg, lex, s, u.output)
  {
  }

  lemma OtherCredentialsVersion(cfg: Config, tail: seq<byte>, output: seq<byte>, budget: nat)
    requires |tail| >= 2 && tail[0] != 1 && budget > 0
    ensures Authenticate(cfg, Link(tail, output, budget)) == Stop(Link(tail[2..], output + [1, 1], budget - 1))
  {
  }

  lemma OtherRequest(lex: Lexicon, tail: seq<byte>, output: seq<byte>, budget: nat)
    requires |tail| >= 4 && budget > 0
    ensures var r := Request(lex, Link(tail, output, budget));
            && (tail[0] != 5 ==> r == Stop(Link(tail[4..], output + [5, 1, 0, 1, 0, 0, 0, 0, 0, 0], budget - 1)))
            && (tail[0] == 5 && tail[1] == 1 && tail[3] !in {1, 3, 4} ==>
                  r == Stop(Link(tail[4..], output + [5, 8, 0, 1, 0, 0, 0, 0, 0, 0], budget - 1)))
  {
  }

  /** Credentials of another version get status 1. */
  lemma BadCredentialsVersion(cfg: Config, lex: Lexicon, methods: seq<byte>, tail: seq<byte>, budget: nat)
    requires cfg.user != [] && cfg.pass != [] && 0 < |methods| < 256 && 2 in methods && budget > 1
    requires |tail| >= 2 && tail[0] != 1
    ensures Refuses(cfg, lex, Opens(methods, tail, budget), [5, 2] + [1, 1])
  {
    var t := Link(tail, [5, 2], budget - 1);
    Greeted(cfg, methods, tail, budget, true, 2);
    OtherCredentialsVersion(cfg, tail, [5, 2], budget - 1);
    StopsAtCredentials(cfg, lex, Opens(methods, tail, budget), t, Authenticate(cfg, t).link);
  }

  /** A request of another version gets reply 1, and an address of unknown type reply 8. */
  lemma BadRequest(cfg: Config, lex: Lexicon, methods: seq<byte>, tail: seq<byte>, budget: nat)
    requires (cfg.user == [] || cfg.pass == []) && 0 < |methods| < 256 && 0 in methods && budget > 1
    requires |tail| >= 4 && (tail[0] != 5 || (tail[1] == 1 && tail[3] !in {1, 3, 4}))
    ensures Refuses(cfg, lex, Opens(methods, tail, budget),
                    [5, 0] + [5, if tail[0] != 5 then 1 else 8, 0, 1, 0, 0, 0, 0, 0, 0])
  {
    var t := Link(tail, [5, 0], budget - 1);
    Greeted(cfg, methods, tail, budget, false, 0);
    OtherRequest(lex, tail, [5, 0], budget - 1);
    StopsAtRequest(cfg, lex, Opens(methods, tail, budget), t, Request(lex, t).link);
  }

  lemma Ipv4Request(
    lex: Lexicon, ip: seq<byte>, hi: byte, lo: byte, rest: seq<byte>, output: seq<byte>, budget: nat)
    requires |ip| == 4 && (hi != 0 || lo != 0)
    ensures Request(lex, Link([5, 1, 0, 1] + (ip + ([hi, lo] + rest)), output, budget)) ==
            Go(Target(IPv4(ip), hi * 256 + lo), Link(rest, output, budget))
  {
    var tail := ip + ([hi, lo] + rest);
    SkipPrefix([5, 1, 0, 1], tail, output, budget);
    OctetsOf(ip, [hi, lo] + rest, output, budget);
    PortIn(lex, Target(IPv4(ip), hi * 256 + lo), [hi, lo], rest, output, budget);
  }

  /** So a client without credentials that asks for an IPv4 address gets it. */
  lemma PlainIpv4(cfg: Config, lex: Lexicon, ip: seq<byte>, hi: byte, lo: byte, rest: seq<byte>, budget: nat)
    requires (cfg.user == [] || cfg.pass == []) && |ip| == 4 && budget > 0 && (hi != 0 || lo != 0)
    ensures Negotiate(cfg, lex, Opens([0], [5, 1, 0, 1] + (ip + ([hi, lo] + rest)), budget)) ==
            Go(Target(IPv4(ip), hi * 256 + lo), Link(rest, [5, 0], budget - 1))
  {
    var tail := [5, 1, 0, 1] + (ip + ([hi, lo] + rest));
    Greeted(cfg, [0], tail, budget, false, 0);
    Unauthenticated(cfg, lex, Opens([0], tail, budget), Link(tail, [5, 0], budget - 1));
    Ipv4Request(lex, ip, hi, lo, rest, [5, 0], budget - 1);
  }
}
