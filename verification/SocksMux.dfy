// The mux registry of one endpoint, with each method run to completion under its
// lock.  MuxSystem interleaves the same operations at the lock boundaries.

module SocksMux {
  import opened Basics

  type ConnId = nat

  class SOCKSChannel {
    const connId: ConnId
    var readyCh: Option<bool>  // buffered, capacity one
    var offered: seq<byte>     // everything written to the receive pipe
    var done: bool
    var pipeClosed: bool
    var teardowns: nat         // times that done, the pipe and the WaitGroup were settled for this channel

    constructor (id: ConnId)
      ensures connId == id && readyCh == None && offered == [] && !done && !pipeClosed && teardowns == 0
    {
      connId, readyCh, offered, done, pipeClosed, teardowns := id, None, [], false, false, 0;
    }

    ghost predicate Open()
      reads this
    {
      !done && !pipeClosed && teardowns == 0
    }

    ghost predicate Ended()
      reads this
    {
      done && pipeClosed && teardowns == 1
    }

    /** ch.Close and recvW.Close. */
    method TearDown()
      requires Open()
      modifies this`done, this`pipeClosed, this`teardowns
      ensures Ended()
    {
      done := true;
      pipeClosed := true;
      teardowns := teardowns + 1;
    }
  }

  class SOCKSMux {
    var channels: map<ConnId, SOCKSChannel>
    var wg: int
    ghost var born: set<SOCKSChannel>  // every channel ever registered

    /** A channel is open exactly while it is in the map, and was torn down exactly once otherwise. */
    ghost predicate Valid()
      reads this, born
    {
      && (forall c | c in channels :: channels[c] in born && channels[c].connId == c && channels[c].Open())
      && (forall ch | ch in born :: if Registered(ch) then ch.Open() else ch.Ended())
      && wg == |channels|
    }

    ghost predicate Registered(ch: SOCKSChannel)
      reads this
    {
      ch.connId in channels && channels[ch.connId] == ch
    }

    constructor ()
      ensures Valid() && channels == map[] && wg == 0 && born == {}
    {
      channels, wg, born := map[], 0, {};
    }

    method NewChannel(connId: ConnId) returns (ch: SOCKSChannel?)
      requires Valid()
      modifies this
      ensures Valid()
      ensures connId in old(channels) ==> ch == null && channels == old(channels) && born == old(born)
      ensures connId !in old(channels) ==>
                && ch != null && fresh(ch) && ch.connId == connId && ch.offered == [] && ch.readyCh == None
                && channels == old(channels)[connId := ch] && born == old(born) + {ch}
      ensures wg == old(wg) + if ch == null then 0 else 1
    {
      if connId in channels {
        return null;
      }
      ch := new SOCKSChannel(connId);
      channels := channels[connId := ch];
      wg := wg + 1;
      born := born + {ch};
    }

    /** Remove and DeliverClose have the same effect on the registry: a no-op for an unknown connID. */
    method Remove(connId: ConnId)
      requires Valid()
      modifies this`channels, this`wg, born
      ensures Valid()
      ensures channels == old(channels) - {connId}
      ensures connId in old(channels) ==> old(channels[connId]).Ended()
      ensures forall ch | ch in born && !(connId in old(channels) && ch == old(channels[connId])) :: unchanged(ch)
      ensures forall ch | ch in born :: ch.offered == old(ch.offered) && ch.readyCh == old(ch.readyCh)
    {
      if connId in channels {
        var ch := channels[connId];
        channels := channels - {connId};
        ch.TearDown();
        wg := wg - 1;
      }
    }

    /** The dispatch loop's pipe write; it fails for an unknown connID and otherwise extends one pipe only. */
    method Deliver(connId: ConnId, data: seq<byte>) returns (ok: bool)
      requires Valid()
      modifies born
      ensures Valid() && ok == (connId in channels)
      ensures ok ==> channels[connId].offered == old(channels[connId].offered) + data
      ensures ok ==> channels[connId].readyCh == old(channels[connId].readyCh)
      ensures forall ch | ch in born && !(ok && ch == channels[connId]) :: unchanged(ch)
    {
      if connId !in channels {
        return false;
      }
      channels[connId].offered := channels[connId].offered + data;
      ok := true;
    }

    /** Only the first ready signal is kept. */
    method DeliverReady(connId: ConnId, success: bool) returns (ok: bool)
      requires Valid()
      modifies born
      ensures Valid() && ok == (connId in channels)
      ensures ok ==> channels[connId].readyCh ==
                     if old(channels[connId].readyCh).Some? then old(channels[connId].readyCh) else Some(success)
      ensures ok ==> channels[connId].offered == old(channels[connId].offered)
      ensures forall ch | ch in born && !(ok && ch == channels[connId]) :: unchanged(ch)
    {
      if connId !in channels {
        return false;
      }
      if channels[connId].readyCh.None? {
        channels[connId].readyCh := Some(success);
      }
      ok := true;
    }

    /** Every registered channel is torn down, each exactly once, and the WaitGroup reaches zero. */
    method CloseAll()
      requires Valid()
      modifies this`channels, this`wg, born
      ensures Valid() && channels == map[] && wg == 0
      ensures forall ch | ch in born :: ch.Ended()
      ensures forall ch | ch in born && !old(Registered(ch)) :: unchanged(ch)
    {
      var snapshot := channels;
      channels := map[];
      var todo := snapshot.Keys;
      while todo != {}
        invariant channels == map[] && todo <= snapshot.Keys
        invariant wg == |todo|
        invariant forall c | c in todo :: snapshot[c].Open()
        invariant forall ch | ch in born && !(ch.connId in todo && snapshot[ch.connId] == ch) :: ch.Ended()
        invariant forall ch | ch in born && !old(Registered(ch)) :: unchanged(ch)
      {
        var c :| c in todo;
        snapshot[c].TearDown();
        wg := wg - 1;
        todo := todo - {c};
      }
    }
  }
}
