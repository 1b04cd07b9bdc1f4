/**
 * What adding and removing a connection does to the device registry,
 * entry by entry, and the registry invariants those steps keep: every
 * device's `connections` list is the list of connections touching it, only
 * routers carry interface bindings and those are keyed by their own
 * connection ids, and at most one connection joins a pair of devices.
 */
module Bookkeeping {
  import opened Options
  import opened Devices
  import opened Topology

  // ---------------------------------------------------------------------
  // Registry entries

  /** In a registry with unique ids, the lookups by id find entry `k` for its own id. */
  lemma LookupUnique(devs: seq<Device>, k: nat)
    requires UniqueIds(devs) && k < |devs|
    ensures Registered(devs, devs[k].id) && IndexOf(devs, devs[k].id) == k
    ensures FindById(devs, devs[k].id) == Some(devs[k])
  {
    assert devs[k].id == devs[k].id;
  }

  /** Replacing the entry with id `e.id` changes that entry and nothing else. */
  lemma ReplaceEntries(devs: seq<Device>, e: Device)
    requires UniqueIds(devs) && Registered(devs, e.id)
    ensures var r := Replace(devs, e);
      |r| == |devs| && UniqueIds(r) && forall k :: 0 <= k < |devs| ==> r[k] == if devs[k].id == e.id then e else devs[k]
  {
    var i := IndexOf(devs, e.id);
    forall k | 0 <= k < |devs| && devs[k].id == e.id
      ensures k == i
    {
      LookupUnique(devs, k);
    }
  }

  /** A device after gaining the ids a new connection contributes to it. */
  function Pushed(d: Device, l: Link): Device
  {
    d.(connections := d.connections + Ends(l, d.id))
  }

  lemma PushConnIdEntries(devs: seq<Device>, id: DeviceId, cid: ConnId)
    requires UniqueIds(devs) && Registered(devs, id)
    ensures var r := PushConnId(devs, id, cid);
      |r| == |devs| && UniqueIds(r) && forall k :: 0 <= k < |devs| ==>
        r[k] == if devs[k].id == id then devs[k].(connections := devs[k].connections + [cid]) else devs[k]
  {
    var d := devs[IndexOf(devs, id)];
    ReplaceEntries(devs, d.(connections := d.connections + [cid]));
    forall k | 0 <= k < |devs| && devs[k].id == id
      ensures devs[k] == d
    {
      LookupUnique(devs, k);
    }
  }

  lemma AttachEntries(devs: seq<Device>, l: Link)
    requires UniqueIds(devs) && Registered(devs, l.end1) && Registered(devs, l.end2)
    ensures |Attach(devs, l)| == |devs| && UniqueIds(Attach(devs, l))
    ensures forall k :: 0 <= k < |devs| ==> Attach(devs, l)[k] == Pushed(devs[k], l)
  {
    PushConnIdEntries(devs, l.end1, l.id);
    var m := PushConnId(devs, l.end1, l.id);
    var j := IndexOf(devs, l.end2);
    assert m[j].id == l.end2;
    PushConnIdEntries(m, l.end2, l.id);
    forall k | 0 <= k < |devs|
      ensures Attach(devs, l)[k] == Pushed(devs[k], l)
    {
      if devs[k].id == l.end1 && devs[k].id == l.end2 {
        assert devs[k].connections + [l.id] + [l.id] == devs[k].connections + ([l.id] + [l.id]);
      }
    }
  }

  /** A device after splicing the id of `l` out of its list once per end it is. */
  function Unlisted(d: Device, l: Link): Device
  {
    var c1 := if d.id == l.end1 then RemoveFirst(d.connections, l.id) else d.connections;
    d.(connections := if d.id == l.end2 then RemoveFirst(c1, l.id) else c1)
  }

  /** A router endpoint after deleting the binding of `l`. */
  function Unbound(d: Device, l: Link): Device
  {
    var b1 := if d.kind == Router && d.id == l.end1 then DeleteKey(d.connectionInterfaces, l.id) else d.connectionInterfaces;
    d.(connectionInterfaces := if d.kind == Router && d.id == l.end2 then DeleteKey(b1, l.id) else b1)
  }

  lemma DropConnIdEntries(devs: seq<Device>, id: DeviceId, cid: ConnId)
    requires UniqueIds(devs)
    ensures var r := DropConnId(devs, id, cid);
      |r| == |devs| && UniqueIds(r) && forall k :: 0 <= k < |devs| ==>
        r[k] == if devs[k].id == id then devs[k].(connections := RemoveFirst(devs[k].connections, cid)) else devs[k]
  {
    match FindById(devs, id)
    case None =>
    case Some(d) =>
      ReplaceEntries(devs, d.(connections := RemoveFirst(d.connections, cid)));
      forall k | 0 <= k < |devs| && devs[k].id == id
        ensures devs[k] == d
      {
        LookupUnique(devs, k);
      }
  }

  lemma DropBindingEntries(devs: seq<Device>, id: DeviceId, cid: ConnId)
    requires UniqueIds(devs)
    ensures var r := DropBinding(devs, id, cid);
      |r| == |devs| && UniqueIds(r) && forall k :: 0 <= k < |devs| ==>
        r[k] == if devs[k].id == id && devs[k].kind == Router
                then devs[k].(connectionInterfaces := DeleteKey(devs[k].connectionInterfaces, cid)) else devs[k]
  {
    match FindById(devs, id)
    case None =>
    case Some(d) =>
      forall k | 0 <= k < |devs| && devs[k].id == id
        ensures devs[k] == d
      {
        LookupUnique(devs, k);
      }
      if d.kind == Router {
        ReplaceEntries(devs, d.(connectionInterfaces := DeleteKey(d.connectionInterfaces, cid)));
      }
  }

  lemma UnlistEntries(devs: seq<Device>, l: Link)
    requires UniqueIds(devs)
    ensures |Unlist(devs, l)| == |devs| && UniqueIds(Unlist(devs, l))
    ensures forall k :: 0 <= k < |devs| ==> Unlist(devs, l)[k] == Unlisted(devs[k], l)
  {
    DropConnIdEntries(devs, l.end1, l.id);
    DropConnIdEntries(DropConnId(devs, l.end1, l.id), l.end2, l.id);
  }

  lemma DetachEntries(devs: seq<Device>, l: Link)
    requires UniqueIds(devs)
    ensures |Detach(devs, l)| == |devs| && UniqueIds(Detach(devs, l))
    ensures forall k :: 0 <= k < |devs| ==> Detach(devs, l)[k] == Unbound(Unlisted(devs[k], l), l)
  {
    UnlistEntries(devs, l);
    var u := Unlist(devs, l);
    DropBindingEntries(u, l.end1, l.id);
    DropBindingEntries(DropBinding(u, l.end1, l.id), l.end2, l.id);
  }

  // ---------------------------------------------------------------------
  // Adding a connection

  /** Appending a connection with a new id keeps every list in step with the registry. */
  lemma AttachKeepsLinked(links: seq<Link>, devs: seq<Device>, l: Link)
    requires Linked(links, devs) && UniqueIds(devs) && Registered(devs, l.end1) && Registered(devs, l.end2)
    requires forall i :: 0 <= i < |links| ==> links[i].id != l.id
    ensures Linked(links + [l], Attach(devs, l)) && UniqueIds(Attach(devs, l))
  {
    AttachEntries(devs, l);
    assert (links + [l])[..|links|] == links;
  }

  /** Adding connection ids leaves the bindings valid. */
  lemma AttachKeepsBindings(devs: seq<Device>, l: Link)
    requires BindingsSubset(devs) && UniqueIds(devs) && Registered(devs, l.end1) && Registered(devs, l.end2)
    ensures BindingsSubset(Attach(devs, l))
  {
    AttachEntries(devs, l);
  }

  /** A connection for a pair not yet joined keeps pairs unique. */
  lemma AppendKeepsPairsUnique(links: seq<Link>, l: Link)
    requires PairsUnique(links) && !Connected(links, l.end1, l.end2)
    ensures PairsUnique(links + [l])
  {
    forall i, j | 0 <= i < j < |links + [l]|
      ensures !Joins((links + [l])[j], (links + [l])[i].end1, (links + [l])[i].end2)
    {
      if j == |links| {
        assert !Joins(links[i], l.end1, l.end2);
      }
    }
  }

  // ---------------------------------------------------------------------
  // Removing a connection

  /** Splicing an id out once per end it is of `l` removes exactly its entries. */
  lemma SpliceEnds(a: seq<ConnId>, b: seq<ConnId>, l: Link, x: DeviceId)
    requires l.id !in a
    ensures var s := a + Ends(l, x) + b;
      var c1 := if x == l.end1 then RemoveFirst(s, l.id) else s;
      (if x == l.end2 then RemoveFirst(c1, l.id) else c1) == a + b
  {
    if x == l.end1 && x == l.end2 {
      assert a + Ends(l, x) + b == a + [l.id] + ([l.id] + b);
      RemoveFirstPast(a, [l.id] + b, l.id);
      assert a + ([l.id] + b) == a + [l.id] + b;
      RemoveFirstPast(a, b, l.id);
    } else if x == l.end1 || x == l.end2 {
      assert Ends(l, x) == [l.id];
      RemoveFirstPast(a, b, l.id);
    } else {
      assert a + Ends(l, x) + b == a + b;
    }
  }

  /** One device: splicing the id of `l` out of its list leaves the list of the other connections. */
  lemma UnlistedIncident(pre: seq<Link>, l: Link, post: seq<Link>, d: Device)
    requires d.connections == Incident(pre + [l] + post, d.id)
    requires forall i :: 0 <= i < |pre| ==> pre[i].id != l.id
    ensures Unlisted(d, l).connections == Incident(pre + post, d.id)
  {
    var x := d.id;
    IncidentConcat(pre + [l], post, x);
    IncidentConcat(pre, [l], x);
    IncidentConcat(pre, post, x);
    assert [l][..0] == [];
    assert Incident([l], x) == Ends(l, x);
    InIncident(pre, x, l.id);
    SpliceEnds(Incident(pre, x), Incident(post, x), l, x);
  }

  /** Removing the connection at `j` from the registry and its id from both ends keeps the lists in step. */
  lemma UnlistKeepsLinked(links: seq<Link>, devs: seq<Device>, j: nat)
    requires Linked(links, devs) && UniqueIds(devs) && j < |links|
    ensures Linked(links[..j] + links[j + 1..], Unlist(devs, links[j])) && UniqueIds(Unlist(devs, links[j]))
  {
    var l := links[j];
    var pre, post := links[..j], links[j + 1..];
    assert links == pre + [l] + post;
    UnlistEntries(devs, l);
    forall k | 0 <= k < |devs|
      ensures Unlist(devs, l)[k].connections == Incident(pre + post, devs[k].id)
    {
      UnlistedIncident(pre, l, post, devs[k]);
    }
    var rest := pre + post;
    assert forall i :: 0 <= i < |rest| ==> rest[i] == if i < j then links[i] else links[i + 1];
  }

  lemma DetachKeepsLinked(links: seq<Link>, devs: seq<Device>, j: nat)
    requires Linked(links, devs) && UniqueIds(devs) && j < |links|
    ensures Linked(links[..j] + links[j + 1..], Detach(devs, links[j])) && UniqueIds(Detach(devs, links[j]))
  {
    UnlistKeepsLinked(links, devs, j);
    UnlistEntries(devs, links[j]);
    DetachEntries(devs, links[j]);
  }

  /** Deleting the bindings of the removed connection keeps the bindings valid. */
  lemma DetachKeepsBindings(devs: seq<Device>, l: Link)
    requires BindingsSubset(devs) && UniqueIds(devs)
    ensures BindingsSubset(Detach(devs, l))
  {
    DetachEntries(devs, l);
    var r := Detach(devs, l);
    forall k | 0 <= k < |r|
      ensures (r[k].kind != Router ==> r[k].connectionInterfaces == [])
        && UniqueKeys(r[k].connectionInterfaces)
        && forall m :: 0 <= m < |r[k].connectionInterfaces| ==> r[k].connectionInterfaces[m].conn in r[k].connections
    {
      DetachKeepsDeviceBindings(devs[k], l);
    }
  }

  /** One device: the bindings left after detaching `l` still name listed connections. */
  lemma DetachKeepsDeviceBindings(d: Device, l: Link)
    requires d.kind != Router ==> d.connectionInterfaces == []
    requires UniqueKeys(d.connectionInterfaces)
    requires forall m :: 0 <= m < |d.connectionInterfaces| ==> d.connectionInterfaces[m].conn in d.connections
    ensures var e := Unbound(Unlisted(d, l), l);
      (e.kind != Router ==> e.connectionInterfaces == [])
      && UniqueKeys(e.connectionInterfaces)
      && forall m :: 0 <= m < |e.connectionInterfaces| ==> e.connectionInterfaces[m].conn in e.connections
  {
    var e := Unbound(Unlisted(d, l), l);
    forall m | 0 <= m < |e.connectionInterfaces| ensures e.connectionInterfaces[m].conn in e.connections {
      var b := e.connectionInterfaces[m];
      assert b in d.connectionInterfaces;
      var m' :| 0 <= m' < |d.connectionInterfaces| && d.connectionInterfaces[m'] == b;
      assert b.conn in d.connections;
      assert d.id == l.end1 || d.id == l.end2 ==> b.conn != l.id;
    }
  }

  /**
   * `removeConnection`: afterwards no device lists the id of the removed
   * connection and no router has a binding for it.
   */
  lemma DetachRetracts(links: seq<Link>, devs: seq<Device>, j: nat)
    requires Linked(links, devs) && BindingsSubset(devs) && UniqueIds(devs) && j < |links|
    ensures var r := Detach(devs, links[j]);
      forall k :: 0 <= k < |r| ==>
        links[j].id !in r[k].connections && forall b :: b in r[k].connectionInterfaces ==> b.conn != links[j].id
  {
    DetachUnlists(links, devs, j);
    DetachUnbinds(links, devs, j);
  }

  lemma DetachUnlists(links: seq<Link>, devs: seq<Device>, j: nat)
    requires Linked(links, devs) && UniqueIds(devs) && j < |links|
    ensures var r := Detach(devs, links[j]);
      forall k :: 0 <= k < |r| ==> links[j].id !in r[k].connections
  {
    var l := links[j];
    var rest := links[..j] + links[j + 1..];
    DetachKeepsLinked(links, devs, j);
    SpliceDropsId(links, j, rest);
    var r := Detach(devs, l);
    forall k | 0 <= k < |r|
      ensures l.id !in r[k].connections
    {
      InIncident(rest, r[k].id, l.id);
    }
  }

  /** With unique ids, no other connection carries the id of the one spliced out. */
  lemma SpliceDropsId(links: seq<Link>, j: nat, rest: seq<Link>)
    requires UniqueLinkIds(links) && j < |links| && rest == links[..j] + links[j + 1..]
    ensures forall i :: 0 <= i < |rest| ==> rest[i].id != links[j].id
  {
    forall i | 0 <= i < |rest|
      ensures rest[i].id != links[j].id
    {
      if i < j {
        assert rest[i] == links[i];
      } else {
        assert rest[i] == links[i + 1];
      }
    }
  }

  lemma DetachUnbinds(links: seq<Link>, devs: seq<Device>, j: nat)
    requires Linked(links, devs) && BindingsSubset(devs) && UniqueIds(devs) && j < |links|
    ensures var r := Detach(devs, links[j]);
      forall k :: 0 <= k < |r| ==> forall b :: b in r[k].connectionInterfaces ==> b.conn != links[j].id
  {
    var l := links[j];
    DetachUnlists(links, devs, j);
    DetachKeepsBindings(devs, l);
    var r := Detach(devs, l);
    forall k, b | 0 <= k < |r| && b in r[k].connectionInterfaces
      ensures b.conn != l.id
    {
      var m :| 0 <= m < |r[k].connectionInterfaces| && r[k].connectionInterfaces[m] == b;
    }
  }
}
