// The store of approved fingerprints: an in-memory map, rewritten to its file after each change.

module KnownHosts {
  import opened Basics

  type Name = string
  type Fingerprint = string

  /** One entry of the file. */
  datatype Host = Host(name: Name, fingerprint: Fingerprint)

  /** Reading the entries of a file: later ones win, and those with an empty name or fingerprint are skipped. */
  function Load(list: seq<Host>): map<Name, Fingerprint> {
    if list == [] then map[]
    else
      var hosts, h := Load(list[..|list| - 1]), list[|list| - 1];
      if h.name != "" && h.fingerprint != "" then hosts[h.name := h.fingerprint] else hosts
  }

  /** The file lists every host once, in some order. */
  ghost predicate IsListing(list: seq<Host>, hosts: map<Name, Fingerprint>) {
    && (forall i, j | 0 <= i < j < |list| :: list[i].name != list[j].name)
    && (forall i | 0 <= i < |list| :: list[i].name in hosts && list[i].fingerprint == hosts[list[i].name])
    && forall name | name in hosts :: Host(name, hosts[name]) in list
  }

  predicate Storable(name: Name, fp: Fingerprint) {
    name != "" && fp != ""
  }

  lemma {:induction false} LoadFinds(list: seq<Host>, name: Name)
    requires forall i, j | 0 <= i < j < |list| :: list[i].name != list[j].name
    ensures forall fp :: name in Load(list) && Load(list)[name] == fp <==> Host(name, fp) in list && Storable(name, fp)
  {
    if list != [] {
      var init, h := list[..|list| - 1], list[|list| - 1];
      LoadFinds(init, name);
      assert list == init + [h];
      assert forall k | k in init :: k.name != h.name;
    }
  }

  /** Entry k of the file is the last usable one for its name. */
  ghost predicate LastFor(list: seq<Host>, k: nat) {
    && k < |list| && Storable(list[k].name, list[k].fingerprint)
    && forall i | k < i < |list| :: list[i].name == list[k].name ==> list[i].fingerprint == ""
  }

  /** What is loaded for a name is its last usable entry, and nothing if there is none. */
  lemma {:induction false} LastEntryWins(list: seq<Host>, name: Name)
    ensures forall k: nat | LastFor(list, k) && list[k].name == name ::
              name in Load(list) && Load(list)[name] == list[k].fingerprint
    ensures name in Load(list) ==> exists k: nat :: LastFor(list, k) && list[k].name == name
  {
    if list != [] {
      var n := |list| - 1;
      var init, h := list[..n], list[n];
      LastEntryWins(init, name);
      forall k: nat | LastFor(list, k) && list[k].name == name
        ensures name in Load(list) && Load(list)[name] == list[k].fingerprint
      {
        if k < n { assert LastFor(init, k) && init[k] == list[k]; }
      }
      if name in Load(list) {
        if h.name == name && Storable(name, h.fingerprint) {
          assert LastFor(list, n);
        } else {
          var k: nat :| LastFor(init, k) && init[k].name == name;
          assert list[k] == init[k] && LastFor(list, k);
        }
      }
    }
  }

  /** A store that is written and read again is the same if and only if no name or fingerprint in it is empty. */
  lemma ReloadIff(hosts: map<Name, Fingerprint>, list: seq<Host>)
    requires IsListing(list, hosts)
    ensures Load(list) == hosts <==> forall name | name in hosts :: Storable(name, hosts[name])
  {
    forall name ensures name in Load(list) <==> name in hosts && Storable(name, hosts[name])
      ensures name in Load(list) ==> Load(list)[name] == hosts[name]
    {
      LoadFinds(list, name);
      if name in Load(list) { assert Host(name, Load(list)[name]) in list; }
      if name in hosts { assert Host(name, hosts[name]) in list; }
    }
    if forall name | name in hosts :: Storable(name, hosts[name]) {
      assert Load(list).Keys == hosts.Keys;
    }
  }

  lemma ListingGrows(list: seq<Host>, hosts: map<Name, Fingerprint>, name: Name, fp: Fingerprint)
    requires IsListing(list, hosts) && name !in hosts
    ensures IsListing(list + [Host(name, fp)], hosts[name := fp])
  {
    var list', hosts' := list + [Host(name, fp)], hosts[name := fp];
    forall n | n in hosts' ensures Host(n, hosts'[n]) in list' {
      if n == name { assert list'[|list|] == Host(n, fp); } else { assert Host(n, hosts[n]) in list; }
    }
  }

  lemma ListingOf(hosts: map<Name, Fingerprint>) returns (list: seq<Host>)
    ensures IsListing(list, hosts)
    decreases |hosts|
  {
    if hosts == map[] {
      list := [];
    } else {
      var name :| name in hosts;
      list := ListingOf(hosts - {name});
      ListingGrows(list, hosts - {name}, name, hosts[name]);
      assert (hosts - {name})[name := hosts[name]] == hosts;
      list := list + [Host(name, hosts[name])];
    }
  }

  class Store {
    const backed: bool              // a path is configured
    var hosts: map<Name, Fingerprint>
    var file: seq<Host>

    /** LoadKnownHosts; a missing file is an empty one. */
    constructor (backed: bool, file: seq<Host>)
      ensures this.backed == backed && this.file == file && hosts == Load(file)
    {
      this.backed := backed;
      this.file := file;
      var hosts := map[];
      for i := 0 to |file|
        invariant hosts == Load(file[..i])
      {
        assert file[..i + 1][..i] == file[..i];
        if file[i].name != "" && file[i].fingerprint != "" {
          hosts := hosts[file[i].name := file[i].fingerprint];
        }
      }
      assert file[..|file|] == file;
      this.hosts := hosts;
    }

    method Lookup(name: Name) returns (r: Option<Fingerprint>)
      ensures r == if name in hosts then Some(hosts[name]) else None
    {
      r := if name in hosts then Some(hosts[name]) else None;
    }

    /** The in-memory entry stays even when the file cannot be rewritten. */
    method Add(name: Name, fp: Fingerprint, diskWorks: bool) returns (ok: bool)
      modifies this
      ensures hosts == old(hosts)[name := fp]
      ensures ok <==> !backed || diskWorks
      ensures if backed && diskWorks then IsListing(file, hosts) else file == old(file)
    {
      hosts := hosts[name := fp];
      ok := WriteLocked(diskWorks);
    }

    method Remove(name: Name, diskWorks: bool) returns (ok: bool)
      modifies this
      ensures hosts == old(hosts) - {name}
      ensures ok <==> !backed || diskWorks
      ensures if backed && diskWorks then IsListing(file, hosts) else file == old(file)
    {
      hosts := hosts - {name};
      ok := WriteLocked(diskWorks);
    }

    /** Temporary file and rename: the file is rewritten whole or not at all. */
    method WriteLocked(diskWorks: bool) returns (ok: bool)
      modifies this`file
      ensures ok <==> !backed || diskWorks
      ensures if backed && diskWorks then IsListing(file, hosts) else file == old(file)
    {
      if !backed {
        return true;
      }
      var out := Entries(hosts);
      if !diskWorks {
        return false;
      }
      file := out;
      ok := true;
    }
  }

  /** The entries of a store, in whatever order the map yields them. */
  method Entries(hosts: map<Name, Fingerprint>) returns (out: seq<Host>)
    ensures IsListing(out, hosts)
  {
    out := [];
    var left := hosts.Keys;
    while left != {}
      invariant left <= hosts.Keys && IsListing(out, hosts - left)
      decreases |left|
    {
      var name :| name in left;
      ListingGrows(out, hosts - left, name, hosts[name]);
      assert hosts - (left - {name}) == (hosts - left)[name := hosts[name]];
      out := out + [Host(name, hosts[name])];
      left := left - {name};
    }
    assert hosts - {} == hosts;
  }
}
