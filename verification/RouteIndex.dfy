// The tunnel manager's routing index: maps from tunnel ids and hostnames to entries, and per-client
// lists that must agree with them.

module RouteIndex {
  import opened Basics

  type Client = string

  /** A registered tunnel; listener is a TCP tunnel's public listener, if it has one. */
  datatype Entry = Entry(id: string, client: Client, localHost: string, localPort: int, publicPort: int,
                         listener: Option<nat>, isTLS: bool)

  /** Routes by key (tunnel id or hostname), and the keys that each client registered. */
  datatype Index = Index(routes: map<string, Entry>, lists: map<Client, seq<string>>) {
    function ListOf(c: Client): seq<string> {
      if c in lists then lists[c] else []
    }
  }

  const EMPTY := Index(map[], map[])

  ghost predicate NoDuplicates(keys: seq<string>) {
    forall i, j | 0 <= i < j < |keys| :: keys[i] != keys[j]
  }

  predicate Owns(ix: Index, c: Client, key: string) {
    key in ix.routes && ix.routes[key].client == c
  }

  /** Client c's list is duplicate-free and lists exactly the keys whose route c owns. */
  ghost predicate AgreesFor(ix: Index, c: Client) {
    && NoDuplicates(ix.ListOf(c))
    && forall key :: key in ix.ListOf(c) <==> Owns(ix, c, key)
  }

  ghost predicate Agrees(ix: Index) {
    forall c :: AgreesFor(ix, c)
  }

  /** A hostname is refused to a second client. */
  predicate Refuses(ix: Index, key: string, e: Entry) {
    key in ix.routes && ix.routes[key].client != e.client
  }

  /** Registering a hostname. */
  function AddHost(ix: Index, key: string, e: Entry): Index {
    if Refuses(ix, key, e) then ix
    else
      var tracked := key in ix.ListOf(e.client);
      Index(ix.routes[key := e],
            if tracked then ix.lists else ix.lists[e.client := ix.ListOf(e.client) + [key]])
  }

  /** Registering a TCP tunnel, which is not checked against what is there. */
  function AddTcp(ix: Index, id: string, e: Entry): Index {
    Index(ix.routes[id := e], ix.lists[e.client := ix.ListOf(e.client) + [id]])
  }

  /** Client c and exactly its routes are gone. */
  ghost predicate RemovedFor(ix: Index, ix': Index, c: Client) {
    && ix'.lists == ix.lists - {c}
    && (forall key :: key in ix'.routes <==> key in ix.routes && !Owns(ix, c, key))
    && forall key | key in ix'.routes :: ix'.routes[key] == ix.routes[key]
  }

  class Manager {
    var tcp: Index
    var http: Index
    var https: Index
    var closed: set<nat>   // listeners that were closed

    ghost predicate Valid()
      reads this
    {
      Agrees(tcp) && Agrees(http) && Agrees(https)
    }

    constructor ()
      ensures Valid() && tcp == http == https == EMPTY && closed == {}
    {
      tcp, http, https, closed := EMPTY, EMPTY, EMPTY, {};
    }

    /** Keeps the index valid exactly when the id is new, as a fresh UUID is. */
    method AddTunnel(id: string, client: Client, localHost: string, localPort: int, publicPort: int,
                     listener: Option<nat>)
      returns (entry: Entry)
      requires Valid()
      modifies this`tcp
      ensures entry == Entry(id, client, localHost, localPort, publicPort, listener, false)
      ensures tcp == AddTcp(old(tcp), id, entry)
      ensures Valid() <==> id !in old(tcp).routes
    {
      entry := Entry(id, client, localHost, localPort, publicPort, listener, false);
      AddTcpAgreesIff(tcp, id, entry);
      tcp := Index(tcp.routes[id := entry], tcp.lists[client := tcp.ListOf(client) + [id]]);
    }

    /** The hostname registration that AddHTTPTunnel and AddHTTPSTunnel share. */
    static method Register(ix: Index, hostname: string, entry: Entry) returns (ix': Index, ok: bool)
      requires Agrees(ix)
      ensures ix' == AddHost(ix, hostname, entry) && Agrees(ix')
      ensures ok <==> !Refuses(ix, hostname, entry)
    {
      AddHostAgrees(ix, hostname, entry);
      if hostname in ix.routes && ix.routes[hostname].client != entry.client {
        return ix, false;
      }
      var alreadyTracked := false;
      var hosts := ix.ListOf(entry.client);
      for i := 0 to |hosts|
        invariant !alreadyTracked && hostname !in hosts[..i]
      {
        if hosts[i] == hostname {
          alreadyTracked := true;
          break;
        }
      }
      var lists := ix.lists;
      if !alreadyTracked {
        lists := lists[entry.client := hosts + [hostname]];
      }
      ix', ok := Index(ix.routes[hostname := entry], lists), true;
    }

    method AddHTTPTunnel(id: string, client: Client, hostname: string, localHost: string, localPort: int)
      returns (r: Option<Entry>)
      requires Valid()
      modifies this`http
      ensures Valid()
      ensures var e := Entry(id, client, localHost, localPort, 0, None, false);
              && http == AddHost(old(http), hostname, e)
              && r == if Refuses(old(http), hostname, e) then None else Some(e)
    {
      var entry, ok := Entry(id, client, localHost, localPort, 0, None, false), false;
      http, ok := Register(http, hostname, entry);
      r := if ok then Some(entry) else None;
    }

    method AddHTTPSTunnel(id: string, client: Client, hostname: string, localHost: string, localPort: int)
      returns (r: Option<Entry>)
      requires Valid()
      modifies this`https
      ensures Valid()
      ensures var e := Entry(id, client, localHost, localPort, 0, None, true);
              && https == AddHost(old(https), hostname, e)
              && r == if Refuses(old(https), hostname, e) then None else Some(e)
    {
      var entry, ok := Entry(id, client, localHost, localPort, 0, None, true), false;
      https, ok := Register(https, hostname, entry);
      r := if ok then Some(entry) else None;
    }

    /** Closes and removes all TCP tunnels of a client. */
    method RemoveTunnelsForClient(client: Client)
      requires Valid()
      modifies this`tcp, this`closed
      ensures Valid() && RemovedFor(old(tcp), tcp, client)
      ensures closed == old(closed) +
                set key | key in old(tcp).routes && Owns(old(tcp), client, key) && old(tcp).routes[key].listener.Some?
                  :: old(tcp).routes[key].listener.value
    {
      var was := tcp;
      var ids := was.ListOf(client);
      var routes, shut := was.routes, {};
      for i := 0 to |ids|
        invariant Deleted(was, client, ids[..i], routes)
        invariant shut == set key | key in ids[..i] && key in was.routes && was.routes[key].listener.Some?
                            :: was.routes[key].listener.value
      {
        var id := ids[i];
        assert ids[..i + 1] == ids[..i] + [id];
        assert AgreesFor(was, client);
        assert id !in ids[..i] && id in ids;
        if id in routes {
          var e := routes[id];
          if e.listener.Some? {
            shut := shut + {e.listener.value};
          }
          routes := routes - {id};
        }
      }
      assert ids[..|ids|] == ids;
      assert AgreesFor(was, client);
      tcp := Index(routes, was.lists - {client});
      closed := closed + shut;
      RemovedAgrees(was, tcp, client);
    }

    static method Unregister(ix: Index, client: Client) returns (ix': Index)
      requires Agrees(ix)
      ensures Agrees(ix') && RemovedFor(ix, ix', client)
    {
      var hosts, routes := ix.ListOf(client), ix.routes;
      for i := 0 to |hosts|
        invariant Deleted(ix, client, hosts[..i], routes)
      {
        assert hosts[..i + 1] == hosts[..i] + [hosts[i]];
        routes := routes - {hosts[i]};
      }
      assert hosts[..|hosts|] == hosts;
      assert AgreesFor(ix, client);
      ix' := Index(routes, ix.lists - {client});
      RemovedAgrees(ix, ix', client);
    }

    /** Removes all hostnames of a client. */
    method RemoveHTTPTunnelsForClient(client: Client)
      requires Valid()
      modifies this`http, this`https
      ensures Valid() && RemovedFor(old(http), http, client) && RemovedFor(old(https), https, client)
    {
      http := Unregister(http, client);
      https := Unregister(https, client);
    }
  }

  /** The loops' progress: the routes of the keys gone through have been deleted. */
  ghost predicate Deleted(ix: Index, c: Client, keys: seq<string>, routes: map<string, Entry>) {
    && (forall key :: key in routes <==> key in ix.routes && key !in keys)
    && forall key | key in routes :: routes[key] == ix.routes[key]
  }

  // ----- Agreement -----

  lemma AddHostAgrees(ix: Index, key: string, e: Entry)
    requires Agrees(ix)
    ensures Agrees(AddHost(ix, key, e))
  {
    var ix' := AddHost(ix, key, e);
    assert AgreesFor(ix, e.client);
    forall c ensures AgreesFor(ix', c) {
      assert AgreesFor(ix, c);
    }
  }

  /** A TCP registration keeps the agreement if and only if the tunnel id is a new one. */
  lemma AddTcpAgreesIff(ix: Index, id: string, e: Entry)
    requires Agrees(ix)
    ensures Agrees(AddTcp(ix, id, e)) <==> id !in ix.routes
  {
    var ix' := AddTcp(ix, id, e);
    assert AgreesFor(ix, e.client);
    if id !in ix.routes {
      assert !Owns(ix, e.client, id) && id !in ix.ListOf(e.client);
      forall c ensures AgreesFor(ix', c) {
        assert AgreesFor(ix, c);
      }
    } else {
      var c := ix.routes[id].client;
      assert AgreesFor(ix, c) && Owns(ix, c, id);
      if c == e.client {
        var keys := ix.ListOf(c);
        var i :| 0 <= i < |keys| && keys[i] == id;
        assert ix'.ListOf(c)[i] == id && ix'.ListOf(c)[|keys|] == id;
        assert !AgreesFor(ix', c);
      } else {
        assert id in ix'.ListOf(c) && !Owns(ix', c, id);
        assert !AgreesFor(ix', c);
      }
    }
  }

  lemma RemovedAgrees(ix: Index, ix': Index, c: Client)
    requires Agrees(ix) && RemovedFor(ix, ix', c)
    ensures Agrees(ix')
  {
    forall d ensures AgreesFor(ix', d) {
      assert AgreesFor(ix, d);
    }
  }

  // ----- Whole histories -----

  datatype Op =
    | AddHostname(key: string, entry: Entry)
    | AddTunnelId(key: string, entry: Entry)
    | RemoveClient(c: Client)

  function Remove(ix: Index, c: Client): (ix': Index)
    ensures RemovedFor(ix, ix', c)
  {
    Index(map key | key in ix.routes && !Owns(ix, c, key) :: ix.routes[key], ix.lists - {c})
  }

  function Apply(ix: Index, op: Op): Index {
    match op
    case AddHostname(key, e) => AddHost(ix, key, e)
    case AddTunnelId(id, e) => AddTcp(ix, id, e)
    case RemoveClient(c) => Remove(ix, c)
  }

  function Run(ops: seq<Op>): Index {
    if ops == [] then EMPTY else Apply(Run(ops[..|ops| - 1]), ops[|ops| - 1])
  }

  /** Every tunnel id is new when it is registered. */
  ghost predicate FreshIds(ops: seq<Op>) {
    forall k | 0 <= k < |ops| && ops[k].AddTunnelId? :: ops[k].key !in Run(ops[..k]).routes
  }

  lemma {:induction false} RunAgrees(ops: seq<Op>)
    requires FreshIds(ops)
    ensures Agrees(Run(ops))
  {
    if ops == [] {
      forall c ensures AgreesFor(EMPTY, c) {}
    } else {
      var init, op := ops[..|ops| - 1], ops[|ops| - 1];
      assert forall k | 0 <= k < |init| :: ops[..k] == init[..k];
      RunAgrees(init);
      match op
      case AddHostname(key, e) => AddHostAgrees(Run(init), key, e);
      case AddTunnelId(id, e) => AddTcpAgreesIff(Run(init), id, e);
      case RemoveClient(c) => RemovedAgrees(Run(init), Run(ops), c);
    }
  }

  /** After any history, a removed client routes nothing, every other route is as it was, and another client
      may then register any of its hostnames. */
  lemma RemovalFreesHostnames(ops: seq<Op>, c: Client, key: string, e: Entry)
    requires FreshIds(ops)
    ensures var ix, ix' := Run(ops), Run(ops + [RemoveClient(c)]);
            && (key in ix.ListOf(c) ==> !Refuses(ix', key, e) && Owns(AddHost(ix', key, e), e.client, key))
            && (key !in ix.ListOf(c) ==> (key in ix'.routes <==> key in ix.routes)
                                         && (key in ix.routes ==> ix'.routes[key] == ix.routes[key]))
            && ix'.ListOf(c) == []
  {
    RunAgrees(ops);
    assert AgreesFor(Run(ops), c);
    assert (ops + [RemoveClient(c)])[..|ops|] == ops;
  }

  /** A hostname never changes hands while its owner stays: whoever owns it keeps it over any further
      registrations and other clients' removals. */
  lemma {:induction false} OwnerKeeps(ops: seq<Op>, more: seq<Op>, c: Client, key: string)
    requires FreshIds(ops + more) && Owns(Run(ops), c, key)
    requires RemoveClient(c) !in more
    ensures Owns(Run(ops + more), c, key)
  {
    if more == [] {
      assert ops + more == ops;
    } else {
      var init, op := more[..|more| - 1], more[|more| - 1];
      var all := ops + more;
      assert all[..|all| - 1] == ops + init;
      assert forall k | 0 <= k < |all| - 1 :: all[..k] == (ops + init)[..k];
      OwnerKeeps(ops, init, c, key);
      assert op == all[|all| - 1] && op in more;
    }
  }

  /** After any history, a hostname that no other client holds is registered: it leads to the new entry and is on the
      client's list, once.  One that another client holds is not.  Nothing else changes. */
  lemma HostnameTakenIffFree(ops: seq<Op>, key: string, e: Entry)
    requires FreshIds(ops)
    ensures var ix, ix' := Run(ops), Run(ops + [AddHostname(key, e)]);
            if exists c :: c != e.client && Owns(ix, c, key) then ix' == ix
            else ix'.routes == ix.routes[key := e] && key in ix'.ListOf(e.client)
                 && NoDuplicates(ix'.ListOf(e.client)) && ix.ListOf(e.client) <= ix'.ListOf(e.client)
                 && forall c | c != e.client :: ix'.ListOf(c) == ix.ListOf(c)
  {
    var ix := Run(ops);
    assert (ops + [AddHostname(key, e)])[..|ops|] == ops;
    RunAgrees(ops);
    AddHostAgrees(ix, key, e);
    assert AgreesFor(AddHost(ix, key, e), e.client);
    if Refuses(ix, key, e) { assert Owns(ix, ix.routes[key].client, key); }
  }

  /** A TCP tunnel with a new id is routed and listed, and nothing else changes. */
  lemma TunnelIsRouted(ops: seq<Op>, id: string, e: Entry)
    requires FreshIds(ops) && id !in Run(ops).routes
    ensures var ix, ix' := Run(ops), Run(ops + [AddTunnelId(id, e)]);
            && ix'.routes == ix.routes[id := e] && ix'.ListOf(e.client) == ix.ListOf(e.client) + [id]
            && AgreesFor(ix', e.client) && forall c | c != e.client :: ix'.ListOf(c) == ix.ListOf(c)
  {
    assert (ops + [AddTunnelId(id, e)])[..|ops|] == ops;
    RunAgrees(ops);
    AddTcpAgreesIff(Run(ops), id, e);
  }
}
