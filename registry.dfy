/**
 * The state changes of `ConnectionManager` as functions of the connection
 * registry and the device registry taken together: creating a connection
 * (with a fresh id or a given one), binding a router interface to it,
 * removing one connection, removing all of them, removing duplicates
 * and refreshing the communication flags, together with what each step
 * promises and the bookkeeping each step keeps.
 */
module Registry {
  import opened Options
  import opened Addressing
  import opened Devices
  import opened Topology
  import opened Bookkeeping
  import opened Reachability
  import opened Routing
  import opened Allocation

  /** `this.connections` and `window.deviceManager.devices`. */
  datatype Reg = Reg(conns: seq<Connection>, devices: seq<Device>)

  function NetOf(g: Reg): Net { Net(Links(g.conns), g.devices) }

  /**
   * The bookkeeping the registry operations keep: device ids are unique,
   * every device lists exactly the connections touching it, and only
   * routers bind interfaces, to connections they list.
   */
  predicate Consistent(g: Reg)
  {
    UniqueIds(g.devices) && Linked(Links(g.conns), g.devices) && BindingsSubset(g.devices)
  }

  /** No registered connection has the id `cid`. */
  predicate FreshId(conns: seq<Connection>, cid: ConnId)
  {
    forall i :: 0 <= i < |conns| ==> conns[i].id != cid
  }

  lemma LinksAppend(conns: seq<Connection>, c: Connection)
    ensures Links(conns + [c]) == Links(conns) + [LinkOf(c)]
  {
  }

  lemma LinksSplice(conns: seq<Connection>, j: nat)
    requires j < |conns|
    ensures Links(conns[..j] + conns[j + 1..]) == Links(conns)[..j] + Links(conns)[j + 1..]
  {
    var a, b := Links(conns[..j] + conns[j + 1..]), Links(conns)[..j] + Links(conns)[j + 1..];
    assert |a| == |b|;
    forall i | 0 <= i < |a|
      ensures a[i] == b[i]
    {
      if i < j {
        assert a[i] == LinkOf(conns[i]);
      } else {
        assert a[i] == LinkOf(conns[i + 1]);
      }
    }
  }

  // ---------------------------------------------------------------------
  // Creating a connection

  /** The result of a create: the index of the connection returned, if any, and the state after. */
  datatype Made = Made(at: Option<nat>, reg: Reg)

  /** The connection a create returns. */
  function Returned(m: Made): Option<Connection>
  {
    if m.at.Some? && m.at.value < |m.reg.conns| then Some(m.reg.conns[m.at.value]) else None
  }

  /**
   * `canCommunicate` and `type` from the decision for the two ends; a
   * decision the search budget does not reach leaves the record as it was.
   */
  function Classify(c: Connection, verdict: Option<Comm>): (r: Connection)
    ensures LinkOf(r) == LinkOf(c) && r.interface1 == c.interface1 && r.interface2 == c.interface2
    ensures verdict.Some? ==> r.canCommunicate == verdict.value.canCommunicate && (r.ctype == Routed <==> verdict.value.viaGateway)
    ensures verdict.None? ==> r == c
  {
    match verdict
    case None => c
    case Some(v) => c.(canCommunicate := v.canCommunicate, ctype := if v.viaGateway then Routed else Direct)
  }

  /** The decision for the registered devices `id1` and `id2` on the network `net`. */
  function Verdict(net: Net, id1: DeviceId, id2: DeviceId): Option<Comm>
  {
    match (FindById(net.devices, id1), FindById(net.devices, id2))
    case (Some(d1), Some(d2)) => Decide(net, d1, d2)
    case _ => None
  }

  /**
   * The new record `{id: cid, device1Id, device2Id, type: 'direct',
   * canCommunicate: true}` is appended, both endpoints list its id, and it
   * is classified on the network that now includes it.
   */
  function Admit(g: Reg, id1: DeviceId, id2: DeviceId, cid: ConnId): Reg
    requires Registered(g.devices, id1) && Registered(g.devices, id2)
  {
    var devs := Attach(g.devices, Link(cid, id1, id2));
    var c := Connection(cid, id1, id2, None, None, Direct, true);
    Reg(g.conns + [Classify(c, Verdict(Net(Links(g.conns + [c]), devs), id1, id2))], devs)
  }

  /** What admitting changes: one record appended for the new link, and the lists of its ends. */
  lemma AdmitShape(g: Reg, id1: DeviceId, id2: DeviceId, cid: ConnId)
    requires Registered(g.devices, id1) && Registered(g.devices, id2)
    ensures var r := Admit(g, id1, id2, cid);
      r.conns == g.conns + [r.conns[|g.conns|]] && LinkOf(r.conns[|g.conns|]) == Link(cid, id1, id2)
      && r.devices == Attach(g.devices, Link(cid, id1, id2))
  {
  }

  /** `canAcceptConnection(device)` for the device with id `id`, no interface requested. */
  predicate Accepts(g: Reg, id: DeviceId)
  {
    CanAccept(g.conns, FindById(g.devices, id), None)
  }

  lemma AcceptsRegistered(g: Reg, id: DeviceId)
    requires Accepts(g, id)
    ensures Registered(g.devices, id)
  {
    var i :| 0 <= i < |g.devices| && g.devices[i] == FindById(g.devices, id).value && FindById(g.devices, id).value.id == id
             && forall j :: 0 <= j < i ==> g.devices[j].id != id;
  }

  /**
   * `createBasicConnection(device1, device2)` with `newId` as the new id:
   * nothing changes when either device refuses or when the pair is
   * already joined (the first such connection is returned); otherwise the
   * new connection is admitted.
   */
  function BasicConnect(g: Reg, id1: DeviceId, id2: DeviceId, newId: ConnId): (r: Made)
    ensures !Accepts(g, id1) || !Accepts(g, id2) ==> r == Made(None, g)
    ensures Accepts(g, id1) && Accepts(g, id2) && Connected(Links(g.conns), id1, id2) ==>
      r.reg == g && r.at.Some? && r.at.value < |g.conns| && Joins(LinkOf(g.conns[r.at.value]), id1, id2)
    ensures Accepts(g, id1) && Accepts(g, id2) && !Connected(Links(g.conns), id1, id2) ==>
      r.at == Some(|g.conns|) && |r.reg.conns| == |g.conns| + 1 && r.reg.conns[..|g.conns|] == g.conns
      && LinkOf(r.reg.conns[|g.conns|]) == Link(newId, id1, id2)
  {
    if !Accepts(g, id1) || !Accepts(g, id2) then Made(None, g)
    else
      match FindPair(g.conns, id1, id2)
      case Some(k) => Made(Some(k), g)
      case None =>
        AcceptsRegistered(g, id1);
        AcceptsRegistered(g, id2);
        Made(Some(|g.conns|), Admit(g, id1, id2, newId))
  }

  /**
   * A new connection: both endpoints gain its id (a device connected to
   * itself twice), every other device is unchanged, and its `type` is
   * `routed` exactly when the decision on the new state goes through a
   * gateway.
   */
  lemma BasicConnectAdds(g: Reg, id1: DeviceId, id2: DeviceId, newId: ConnId)
    requires UniqueIds(g.devices) && Accepts(g, id1) && Accepts(g, id2) && !Connected(Links(g.conns), id1, id2)
    ensures var r := BasicConnect(g, id1, id2, newId).reg;
      |r.devices| == |g.devices| && UniqueIds(r.devices)
      && (forall k :: 0 <= k < |g.devices| ==> r.devices[k] == Pushed(g.devices[k], Link(newId, id1, id2)))
      && var v := Verdict(NetOf(r), id1, id2);
         var c := r.conns[|g.conns|];
         (v.Some? ==> (c.ctype == Routed <==> v.value.viaGateway) && c.canCommunicate == v.value.canCommunicate)
         && (v.None? ==> c.ctype == Direct && c.canCommunicate)
  {
    AcceptsRegistered(g, id1);
    AcceptsRegistered(g, id2);
    var l := Link(newId, id1, id2);
    AttachEntries(g.devices, l);
    var c := Connection(newId, id1, id2, None, None, Direct, true);
    var v := Verdict(Net(Links(g.conns + [c]), Attach(g.devices, l)), id1, id2);
    LinksAppend(g.conns, c);
    LinksAppend(g.conns, Classify(c, v));
  }

  /** The basic create keeps every device id where it was and returns a registered connection. */
  lemma BasicConnectIds(g: Reg, id1: DeviceId, id2: DeviceId, newId: ConnId)
    requires UniqueIds(g.devices)
    ensures var r := BasicConnect(g, id1, id2, newId);
      SameIds(g.devices, r.reg.devices) && (r.at.Some? ==> r.at.value < |r.reg.conns|)
  {
    if Accepts(g, id1) && Accepts(g, id2) && !Connected(Links(g.conns), id1, id2) {
      AcceptsRegistered(g, id1);
      AcceptsRegistered(g, id2);
      AttachEntries(g.devices, Link(newId, id1, id2));
    }
  }

  /**
   * A new connection with an id no connection has keeps the bookkeeping
   * and, since it joins a pair not yet joined, keeps one connection per
   * pair.
   */
  lemma BasicConnectKeeps(g: Reg, id1: DeviceId, id2: DeviceId, newId: ConnId)
    requires Consistent(g) && FreshId(g.conns, newId)
    ensures Consistent(BasicConnect(g, id1, id2, newId).reg)
    ensures PairsUnique(Links(g.conns)) ==> PairsUnique(Links(BasicConnect(g, id1, id2, newId).reg.conns))
  {
    if Accepts(g, id1) && Accepts(g, id2) && !Connected(Links(g.conns), id1, id2) {
      AcceptsRegistered(g, id1);
      AcceptsRegistered(g, id2);
      AdmitKeeps(g, id1, id2, newId);
    }
  }

  lemma AdmitKeeps(g: Reg, id1: DeviceId, id2: DeviceId, newId: ConnId)
    requires Consistent(g) && FreshId(g.conns, newId) && Registered(g.devices, id1) && Registered(g.devices, id2)
    ensures Consistent(Admit(g, id1, id2, newId))
    ensures PairsUnique(Links(g.conns)) && !Connected(Links(g.conns), id1, id2) ==>
      PairsUnique(Links(Admit(g, id1, id2, newId).conns))
  {
    var l := Link(newId, id1, id2);
    var r := Admit(g, id1, id2, newId);
    AdmitShape(g, id1, id2, newId);
    LinksAppend(g.conns, r.conns[|g.conns|]);
    AttachKeepsLinked(Links(g.conns), g.devices, l);
    AttachKeepsBindings(g.devices, l);
    if PairsUnique(Links(g.conns)) && !Connected(Links(g.conns), id1, id2) {
      AppendKeepsPairsUnique(Links(g.conns), l);
    }
  }

  /** The index of the registered connection with id `cid`. */
  function FindConnId(conns: seq<Connection>, cid: ConnId): (r: Option<nat>)
    ensures r.None? <==> FreshId(conns, cid)
    ensures r.Some? ==> r.value < |conns| && conns[r.value].id == cid
  {
    FirstWhere(conns, (c: Connection) => c.id == cid)
  }

  /**
   * `createConnectionWithId(device1, device2, connectionId)`: as a basic
   * create, except that the existing connection returned is the one with
   * that id, whatever it joins, and a pair already joined is joined again.
   */
  function ConnectWithId(g: Reg, id1: DeviceId, id2: DeviceId, cid: ConnId): (r: Made)
    ensures !Accepts(g, id1) || !Accepts(g, id2) ==> r == Made(None, g)
    ensures Accepts(g, id1) && Accepts(g, id2) && !FreshId(g.conns, cid) ==>
      r.reg == g && r.at.Some? && r.at.value < |g.conns| && g.conns[r.at.value].id == cid
    ensures Accepts(g, id1) && Accepts(g, id2) && FreshId(g.conns, cid) ==>
      r.at == Some(|g.conns|) && |r.reg.conns| == |g.conns| + 1 && r.reg.conns[..|g.conns|] == g.conns
      && LinkOf(r.reg.conns[|g.conns|]) == Link(cid, id1, id2)
  {
    if !Accepts(g, id1) || !Accepts(g, id2) then Made(None, g)
    else
      match FindConnId(g.conns, cid)
      case Some(k) => Made(Some(k), g)
      case None =>
        AcceptsRegistered(g, id1);
        AcceptsRegistered(g, id2);
        Made(Some(|g.conns|), Admit(g, id1, id2, cid))
  }

  /** The three outcomes of a create with a given id. */
  lemma ConnectWithIdCases(g: Reg, id1: DeviceId, id2: DeviceId, cid: ConnId)
    ensures !Accepts(g, id1) || !Accepts(g, id2) ==> ConnectWithId(g, id1, id2, cid) == Made(None, g)
    ensures Accepts(g, id1) && Accepts(g, id2) && FindConnId(g.conns, cid).Some? ==>
      ConnectWithId(g, id1, id2, cid) == Made(FindConnId(g.conns, cid), g)
    ensures Accepts(g, id1) && Accepts(g, id2) && FindConnId(g.conns, cid).None? ==>
      Registered(g.devices, id1) && Registered(g.devices, id2)
      && ConnectWithId(g, id1, id2, cid) == Made(Some(|g.conns|), Admit(g, id1, id2, cid))
  {
    if Accepts(g, id1) && Accepts(g, id2) {
      AcceptsRegistered(g, id1);
      AcceptsRegistered(g, id2);
    }
  }

  /** Creating with a given id keeps the bookkeeping (but not one connection per pair). */
  lemma ConnectWithIdKeeps(g: Reg, id1: DeviceId, id2: DeviceId, cid: ConnId)
    requires Consistent(g)
    ensures Consistent(ConnectWithId(g, id1, id2, cid).reg)
  {
    if Accepts(g, id1) && Accepts(g, id2) && FreshId(g.conns, cid) {
      AcceptsRegistered(g, id1);
      AcceptsRegistered(g, id2);
      AdmitKeeps(g, id1, id2, cid);
    }
  }

  /** Two switches already joined are joined a second time under a new id. */
  lemma ConnectWithIdDuplicatesPairs(g: Reg, id1: DeviceId, id2: DeviceId, cid: ConnId)
    requires Accepts(g, id1) && Accepts(g, id2) && FreshId(g.conns, cid) && Connected(Links(g.conns), id1, id2)
    ensures !PairsUnique(Links(ConnectWithId(g, id1, id2, cid).reg.conns))
  {
    AcceptsRegistered(g, id1);
    AcceptsRegistered(g, id2);
    var r := ConnectWithId(g, id1, id2, cid).reg;
    assert r == Admit(g, id1, id2, cid);
    AdmitShape(g, id1, id2, cid);
    LinksAppend(g.conns, r.conns[|g.conns|]);
    var i :| 0 <= i < |Links(g.conns)| && Joins(Links(g.conns)[i], id1, id2);
    assert Links(r.conns)[i] == Links(g.conns)[i];
    assert Joins(Links(r.conns)[|g.conns|], Links(r.conns)[i].end1, Links(r.conns)[i].end2);
  }

  // ---------------------------------------------------------------------
  // Binding a router interface

  /** `connection.interface1` or `interface2`, on the side of the router `rid`. */
  function MarkInterface(c: Connection, rid: DeviceId, f: Iface): Connection
  {
    if c.device1Id == rid then c.(interface1 := Some(f)) else c.(interface2 := Some(f))
  }

  /** `router.connectionInterfaces[connection.id] = f` on the registered device `rid`. */
  function BindOn(devs: seq<Device>, rid: DeviceId, cid: ConnId, f: Iface): seq<Device>
  {
    if Registered(devs, rid) then Bind(devs, rid, cid, f) else devs
  }

  /** A router endpoint binding one of its own connections keeps the bindings valid. */
  lemma BindKeepsBindings(devs: seq<Device>, rid: DeviceId, cid: ConnId, f: Iface)
    requires BindingsSubset(devs) && UniqueIds(devs) && Registered(devs, rid)
    requires devs[IndexOf(devs, rid)].kind == Router && cid in devs[IndexOf(devs, rid)].connections
    ensures BindingsSubset(BindOn(devs, rid, cid, f)) && UniqueIds(BindOn(devs, rid, cid, f))
    ensures |BindOn(devs, rid, cid, f)| == |devs|
    ensures forall k :: 0 <= k < |devs| ==>
      var e := BindOn(devs, rid, cid, f)[k]; e.connections == devs[k].connections && e.id == devs[k].id && e.kind == devs[k].kind
  {
    var d := devs[IndexOf(devs, rid)];
    var e := d.(connectionInterfaces := SetBinding(d.connectionInterfaces, cid, f));
    ReplaceEntries(devs, e);
    var r := BindOn(devs, rid, cid, f);
    forall k, m | 0 <= k < |r| && 0 <= m < |r[k].connectionInterfaces|
      ensures r[k].connectionInterfaces[m].conn in r[k].connections
    {
      if devs[k].id == rid {
        LookupUnique(devs, k);
        var b := r[k].connectionInterfaces[m];
        assert b in SetBinding(d.connectionInterfaces, cid, f);
        if b.conn != cid {
          var m' :| 0 <= m' < |d.connectionInterfaces| && d.connectionInterfaces[m'] == b;
        }
      }
    }
  }

  // ---------------------------------------------------------------------
  // Removing connections

  /** `this.connections.splice(this.connections.indexOf(c), 1)`, nothing when absent. */
  function Unregister(conns: seq<Connection>, c: Connection): (r: seq<Connection>)
    ensures c !in conns ==> r == conns
    ensures c in conns ==> exists j :: 0 <= j < |conns| && conns[j] == c && r == conns[..j] + conns[j + 1..]
  {
    match FirstWhere(conns, (x: Connection) => x == c)
    case None => conns
    case Some(j) => conns[..j] + conns[j + 1..]
  }

  /** `removeConnection(c)`: the lists of both ends, the bindings of both ends, then the registry. */
  function Remove(g: Reg, c: Connection): Reg
  {
    Reg(Unregister(g.conns, c), Detach(g.devices, LinkOf(c)))
  }

  /** Splicing out the registered connection `c` keeps every other one and, ids being unique, drops `c`. */
  lemma UnregisterDrops(conns: seq<Connection>, c: Connection)
    requires UniqueLinkIds(Links(conns)) && c in conns
    ensures var r := Unregister(conns, c);
      |r| == |conns| - 1 && c !in r && UniqueLinkIds(Links(r)) && (forall x :: x in conns && x != c ==> x in r)
  {
    var j :| 0 <= j < |conns| && conns[j] == c && Unregister(conns, c) == conns[..j] + conns[j + 1..];
    var rest := conns[..j] + conns[j + 1..];
    var ls := Links(conns);
    assert forall i :: 0 <= i < |rest| ==> rest[i] == if i < j then conns[i] else conns[i + 1];
    forall x | x in conns && x != c
      ensures x in rest
    {
      var i :| 0 <= i < |conns| && conns[i] == x;
      if i < j {
        assert rest[i] == x;
      } else {
        assert rest[i - 1] == x;
      }
    }
    forall i | 0 <= i < |rest|
      ensures rest[i] != c
    {
      var k := if i < j then i else i + 1;
      assert ls[k].id != ls[j].id;
    }
    LinksSplice(conns, j);
    SpliceKeepsUniqueLinkIds(ls, j);
  }

  lemma SpliceKeepsUniqueLinkIds(ls: seq<Link>, j: nat)
    requires UniqueLinkIds(ls) && j < |ls|
    ensures UniqueLinkIds(ls[..j] + ls[j + 1..])
  {
    var r := ls[..j] + ls[j + 1..];
    forall a, b | 0 <= a < b < |r|
      ensures r[a].id != r[b].id
    {
      var a', b' := if a < j then a else a + 1, if b < j then b else b + 1;
      assert r[a] == ls[a'] && r[b] == ls[b'];
    }
  }

  /** Removing a registered connection keeps the bookkeeping. */
  lemma RemoveKeeps(g: Reg, c: Connection)
    requires Consistent(g) && UniqueLinkIds(Links(g.conns)) && c in g.conns
    ensures Consistent(Remove(g, c)) && UniqueLinkIds(Links(Remove(g, c).conns))
  {
    var j :| 0 <= j < |g.conns| && g.conns[j] == c && Unregister(g.conns, c) == g.conns[..j] + g.conns[j + 1..];
    assert Links(g.conns)[j] == LinkOf(c);
    LinksSplice(g.conns, j);
    DetachKeepsLinked(Links(g.conns), g.devices, j);
    DetachKeepsBindings(g.devices, LinkOf(c));
    UnregisterDrops(g.conns, c);
  }

  /**
   * After `removeConnection(c)` on a registered `c` the registry holds
   * every other connection and not `c`, no device lists `c.id` and no
   * router binds it.
   */
  lemma RemoveRetracts(g: Reg, c: Connection)
    requires Consistent(g) && UniqueLinkIds(Links(g.conns)) && c in g.conns
    ensures var r := Remove(g, c);
      |r.conns| == |g.conns| - 1 && c !in r.conns
      && (forall x :: x in g.conns && x != c ==> x in r.conns)
      && forall k :: 0 <= k < |r.devices| ==>
           c.id !in r.devices[k].connections && forall b :: b in r.devices[k].connectionInterfaces ==> b.conn != c.id
  {
    var j :| 0 <= j < |g.conns| && g.conns[j] == c;
    assert Links(g.conns)[j] == LinkOf(c);
    DetachRetracts(Links(g.conns), g.devices, j);
    UnregisterDrops(g.conns, c);
  }

  /** `clearAllConnections()`: every connection removed in registry order. */
  function DetachAll(devs: seq<Device>, cs: seq<Connection>): seq<Device>
    decreases |cs|
  {
    if cs == [] then devs else DetachAll(Detach(devs, LinkOf(cs[0])), cs[1..])
  }

  /** With unique ids, the first registered connection is the one `indexOf` finds first. */
  lemma UnregisterFirst(conns: seq<Connection>)
    requires conns != []
    ensures Unregister(conns, conns[0]) == conns[1..]
  {
    assert conns[..0] + conns[1..] == conns[1..];
  }

  /** Clearing from consistent bookkeeping leaves no device listing or binding any connection. */
  lemma {:induction false} ClearLeavesNothing(g: Reg)
    requires Consistent(g) && UniqueLinkIds(Links(g.conns))
    ensures var devs := DetachAll(g.devices, g.conns);
      |devs| == |g.devices| && forall k :: 0 <= k < |devs| ==>
        devs[k].connections == [] && forall b :: b !in devs[k].connectionInterfaces
    decreases |g.conns|
  {
    if g.conns != [] {
      var c := g.conns[0];
      UnregisterFirst(g.conns);
      RemoveKeeps(g, c);
      DetachEntries(g.devices, LinkOf(c));
      ClearLeavesNothing(Remove(g, c));
    }
  }

  // ---------------------------------------------------------------------
  // Removing duplicates

  /** `[device1Id, device2Id].sort().join('|')`: the unordered pair of ends. */
  function PairKey(c: Connection): set<DeviceId> { {c.device1Id, c.device2Id} }

  lemma PairKeyJoins(a: Connection, b: Connection)
    ensures PairKey(a) == PairKey(b) <==> Joins(LinkOf(a), b.device1Id, b.device2Id)
  {
    if PairKey(a) == PairKey(b) {
      assert a.device1Id in PairKey(b) && a.device2Id in PairKey(b);
      assert b.device1Id in PairKey(a) && b.device2Id in PairKey(a);
    }
  }

  /** The state of the `forEach` of `removeDuplicateConnections`. */
  datatype Deduped = Deduped(kept: seq<Connection>, devices: seq<Device>, dropped: seq<ConnId>)

  /**
   * The rest of the pass from `seen`, `kept`, `devs` and `dropped`: a
   * connection whose pair was seen is dropped and spliced out of the lists
   * of its ends (its interface bindings stay), any other is kept.
   */
  function Dedup(rest: seq<Connection>, seen: set<set<DeviceId>>, kept: seq<Connection>,
                 devs: seq<Device>, dropped: seq<ConnId>): Deduped
    decreases |rest|
  {
    if rest == [] then Deduped(kept, devs, dropped)
    else
      var c := rest[0];
      if PairKey(c) !in seen then Dedup(rest[1..], seen + {PairKey(c)}, kept + [c], devs, dropped)
      else Dedup(rest[1..], seen, kept, Unlist(devs, LinkOf(c)), dropped + [c.id])
  }

  /** One step of the pass, at position `i` of the registry. */
  lemma DedupStep(conns: seq<Connection>, i: nat, seen: set<set<DeviceId>>, kept: seq<Connection>,
                  devs: seq<Device>, dropped: seq<ConnId>)
    requires i < |conns|
    ensures var c := conns[i];
      Dedup(conns[i..], seen, kept, devs, dropped)
      == if PairKey(c) !in seen then Dedup(conns[i + 1..], seen + {PairKey(c)}, kept + [c], devs, dropped)
         else Dedup(conns[i + 1..], seen, kept, Unlist(devs, LinkOf(c)), dropped + [c.id])
  {
    assert conns[i..][0] == conns[i] && conns[i..][1..] == conns[i + 1..];
  }

  function Keys(cs: seq<Connection>): set<set<DeviceId>>
  {
    set i | 0 <= i < |cs| :: PairKey(cs[i])
  }

  lemma KeysAppend(cs: seq<Connection>, c: Connection)
    ensures Keys(cs + [c]) == Keys(cs) + {PairKey(c)}
  {
    var a := cs + [c];
    assert a[|cs|] == c;
    forall k | k in Keys(cs)
      ensures k in Keys(a)
    {
      var i :| 0 <= i < |cs| && PairKey(cs[i]) == k;
      assert a[i] == cs[i];
    }
  }

  /** Kept connections join pairwise different pairs: their keys are all different. */
  lemma {:induction false} DedupPairsUnique(rest: seq<Connection>, seen: set<set<DeviceId>>, kept: seq<Connection>,
                                            devs: seq<Device>, dropped: seq<ConnId>)
    requires seen == Keys(kept) && PairsUnique(Links(kept))
    ensures PairsUnique(Links(Dedup(rest, seen, kept, devs, dropped).kept))
    decreases |rest|
  {
    if rest != [] {
      var c := rest[0];
      if PairKey(c) !in seen {
        KeysAppend(kept, c);
        LinksAppend(kept, c);
        if Connected(Links(kept), c.device1Id, c.device2Id) {
          var i :| 0 <= i < |Links(kept)| && Joins(Links(kept)[i], c.device1Id, c.device2Id);
          PairKeyJoins(kept[i], c);
        }
        AppendKeepsPairsUnique(Links(kept), LinkOf(c));
        DedupPairsUnique(rest[1..], seen + {PairKey(c)}, kept + [c], devs, dropped);
      } else {
        DedupPairsUnique(rest[1..], seen, kept, Unlist(devs, LinkOf(c)), dropped + [c.id]);
      }
    }
  }

  /** Every connection passed over is kept or shares its pair with a kept one; every kept one was there. */
  lemma {:induction false} DedupCovers(rest: seq<Connection>, seen: set<set<DeviceId>>, kept: seq<Connection>,
                                       devs: seq<Device>, dropped: seq<ConnId>)
    requires seen == Keys(kept)
    ensures var r := Dedup(rest, seen, kept, devs, dropped);
      (forall c :: c in rest ==> PairKey(c) in Keys(r.kept))
      && (forall c :: c in r.kept ==> c in kept || c in rest)
      && Keys(kept) <= Keys(r.kept)
    decreases |rest|
  {
    if rest != [] {
      var c := rest[0];
      var r := Dedup(rest, seen, kept, devs, dropped);
      if PairKey(c) !in seen {
        KeysAppend(kept, c);
        DedupCovers(rest[1..], seen + {PairKey(c)}, kept + [c], devs, dropped);
      } else {
        DedupCovers(rest[1..], seen, kept, Unlist(devs, LinkOf(c)), dropped + [c.id]);
      }
      assert forall x :: x in rest ==> x == c || x in rest[1..];
    }
  }

  /** A pass over connections with pairwise different pairs, none seen yet, keeps them all and drops nothing. */
  lemma {:induction false} DedupKeepsDistinct(rest: seq<Connection>, seen: set<set<DeviceId>>, kept: seq<Connection>,
                                              devs: seq<Device>, dropped: seq<ConnId>)
    requires PairsUnique(Links(rest)) && forall i :: 0 <= i < |rest| ==> PairKey(rest[i]) !in seen
    ensures Dedup(rest, seen, kept, devs, dropped) == Deduped(kept + rest, devs, dropped)
    decreases |rest|
  {
    if rest == [] {
      assert kept + rest == kept;
    } else {
      var c := rest[0];
      var tail := rest[1..];
      forall i | 0 <= i < |tail|
        ensures PairKey(tail[i]) !in seen + {PairKey(c)}
      {
        PairKeyJoins(rest[i + 1], c);
        assert Links(rest)[i + 1] == LinkOf(rest[i + 1]);
        assert !Joins(Links(rest)[i + 1], Links(rest)[0].end1, Links(rest)[0].end2);
      }
      assert PairsUnique(Links(tail)) by {
        forall i, j | 0 <= i < j < |Links(tail)|
          ensures !Joins(Links(tail)[j], Links(tail)[i].end1, Links(tail)[i].end2)
        {
          assert Links(tail)[i] == Links(rest)[i + 1] && Links(tail)[j] == Links(rest)[j + 1];
        }
      }
      DedupKeepsDistinct(tail, seen + {PairKey(c)}, kept + [c], devs, dropped);
      assert kept + [c] + tail == kept + rest;
    }
  }

  /** `removeDuplicateConnections()` run twice: the second pass finds nothing to drop. */
  lemma DedupIdempotent(conns: seq<Connection>, devs: seq<Device>)
    ensures var r := Dedup(conns, {}, [], devs, []);
      Dedup(r.kept, {}, [], r.devices, []) == Deduped(r.kept, r.devices, [])
  {
    var r := Dedup(conns, {}, [], devs, []);
    assert Keys([]) == {};
    assert Links([]) == [];
    DedupPairsUnique(conns, {}, [], devs, []);
    DedupKeepsDistinct(r.kept, {}, [], r.devices, []);
    assert [] + r.kept == r.kept;
  }

  /**
   * The pass keeps every device list in step with the connections kept;
   * the interface bindings of dropped connections stay where they were.
   */
  lemma {:induction false} DedupLinked(rest: seq<Connection>, seen: set<set<DeviceId>>, kept: seq<Connection>,
                                       devs: seq<Device>, dropped: seq<ConnId>)
    requires Linked(Links(kept + rest), devs) && UniqueIds(devs)
    ensures var r := Dedup(rest, seen, kept, devs, dropped);
      Linked(Links(r.kept), r.devices) && UniqueIds(r.devices) && |r.devices| == |devs|
      && forall k :: 0 <= k < |devs| ==>
           r.devices[k].connectionInterfaces == devs[k].connectionInterfaces && r.devices[k].kind == devs[k].kind
    decreases |rest|
  {
    if rest == [] {
      assert kept + rest == kept;
    } else {
      var c := rest[0];
      if PairKey(c) !in seen {
        assert kept + [c] + rest[1..] == kept + rest;
        DedupLinked(rest[1..], seen + {PairKey(c)}, kept + [c], devs, dropped);
      } else {
        var all := kept + rest;
        var j := |kept|;
        assert all[j] == c;
        assert all[..j] + all[j + 1..] == kept + rest[1..];
        LinksSplice(all, j);
        UnlistKeepsLinked(Links(all), devs, j);
        UnlistEntries(devs, LinkOf(c));
        DedupLinked(rest[1..], seen, kept, Unlist(devs, LinkOf(c)), dropped + [c.id]);
      }
    }
  }

  // ---------------------------------------------------------------------
  // Refreshing the flags

  /**
   * `updateAllConnections(devices)` on one record: when both ends are in
   * `devices`, its flags are recomputed on the network `net`.
   */
  function Refresh(c: Connection, net: Net, devices: seq<Device>): (r: Connection)
    ensures LinkOf(r) == LinkOf(c) && r.interface1 == c.interface1 && r.interface2 == c.interface2
    ensures (FindById(devices, c.device1Id).None? || FindById(devices, c.device2Id).None?) ==> r == c
    ensures FindById(devices, c.device1Id).Some? && FindById(devices, c.device2Id).Some? ==>
      var v := Decide(net, FindById(devices, c.device1Id).value, FindById(devices, c.device2Id).value);
      (v.Some? ==> (r.ctype == Routed <==> v.value.viaGateway) && r.canCommunicate == v.value.canCommunicate)
      && (v.None? ==> r == c)
  {
    match (FindById(devices, c.device1Id), FindById(devices, c.device2Id))
    case (Some(d1), Some(d2)) => Classify(c, Decide(net, d1, d2))
    case _ => c
  }

  /** Rewriting one record with a record of the same link leaves the links as they were. */
  lemma LinksUpdate(conns: seq<Connection>, i: nat, rec: Connection)
    requires i < |conns| && LinkOf(rec) == LinkOf(conns[i])
    ensures Links(conns[i := rec]) == Links(conns)
  {
  }

  /** Refreshing leaves the topology as it was. */
  lemma RefreshKeepsLinks(conns: seq<Connection>, conns': seq<Connection>, net: Net, devices: seq<Device>)
    requires |conns'| == |conns| && forall i :: 0 <= i < |conns| ==> conns'[i] == Refresh(conns[i], net, devices)
    ensures Links(conns') == Links(conns)
  {
  }

  // ---------------------------------------------------------------------
  // Router interfaces, WAN addresses and routes on connection

  /** The registered device `e.id` rewritten to `e`; nothing when unregistered. */
  function Put(devs: seq<Device>, e: Device): seq<Device>
  {
    if Registered(devs, e.id) then Replace(devs, e) else devs
  }

  /** Rewriting a registered device with the entry it already has changes nothing. */
  lemma PutFound(devs: seq<Device>, id: DeviceId)
    requires UniqueIds(devs) && FindById(devs, id).Some?
    ensures Put(devs, FindById(devs, id).value) == devs
  {
    var i := IndexOf(devs, id);
    LookupUnique(devs, i);
  }

  /** Two registries holding the same ids at the same places. */
  predicate SameIds(a: seq<Device>, b: seq<Device>)
  {
    |a| == |b| && forall k :: 0 <= k < |a| ==> b[k].id == a[k].id
  }

  lemma SameIdsKeep(a: seq<Device>, b: seq<Device>, id: DeviceId)
    requires UniqueIds(a) && SameIds(a, b)
    ensures UniqueIds(b)
    ensures FindById(a, id).Some? ==> FindById(b, id).Some? && Registered(b, id)
  {
    assert forall i, j :: 0 <= i < j < |b| ==> b[i].id == a[i].id && b[j].id == a[j].id;
    if FindById(a, id).Some? {
      var k :| 0 <= k < |a| && a[k].id == id;
      assert b[k].id == id;
    }
  }

  /** Binding a connection to an interface rewrites bindings only. */
  lemma BindOnIds(devs: seq<Device>, rid: DeviceId, cid: ConnId, f: Iface)
    requires UniqueIds(devs)
    ensures SameIds(devs, BindOn(devs, rid, cid, f)) && UniqueIds(BindOn(devs, rid, cid, f))
  {
    if Registered(devs, rid) {
      var d := devs[IndexOf(devs, rid)];
      ReplaceEntries(devs, d.(connectionInterfaces := SetBinding(d.connectionInterfaces, cid, f)));
    }
  }

  /** The device with its WAN interface replaced. */
  function WithWan(d: Device, w: Interface): Device
  {
    d.(interfaces := d.interfaces.(wan := w))
  }

  /** `assignRouterWanIPForCloud(router, cloud)` as a registry update. */
  function CloudAssign(devs: seq<Device>, router: Device, cloud: Device): seq<Device>
  {
    Put(devs, WithWan(router, CloudWan(devs, router, cloud)))
  }

  /** `assignRouterWanIP(router, otherRouter)` as a registry update. */
  function PeerAssign(devs: seq<Device>, router: Device, other: Device): seq<Device>
  {
    Put(devs, WithWan(router, PeerWan(devs, router, other)))
  }

  /** `updateDeviceIPForRouterInterface(device, router, f)` on the registered devices `did` and `rid`. */
  function HostStep(devs: seq<Device>, did: DeviceId, rid: DeviceId, f: Iface): seq<Device>
  {
    match (FindById(devs, did), FindById(devs, rid))
    case (Some(d), Some(router)) =>
      (match HostSettingFor(devs, d, router, f)
       case None => devs
       case Some(s) => Put(devs, Apply(d, s)))
    case _ => devs
  }

  /** The cloud case of a router-to-device connection: a WAN without address takes one from the cloud. */
  function CloudStep(devs: seq<Device>, rid: DeviceId, oid: DeviceId, f: Iface): seq<Device>
  {
    match (FindById(devs, rid), FindById(devs, oid))
    case (Some(router), Some(other)) =>
      if f == Wan && other.kind == Cloud && !router.interfaces.wan.ip.Quad? then CloudAssign(devs, router, other) else devs
    case _ => devs
  }

  /** A router wired on its WAN, with no WAN address, takes one from the other router's LAN. */
  function WanStep(devs: seq<Device>, rid: DeviceId, oid: DeviceId, f: Iface): seq<Device>
  {
    match (FindById(devs, rid), FindById(devs, oid))
    case (Some(router), Some(other)) =>
      if f == Wan && !router.interfaces.wan.ip.Quad? then PeerAssign(devs, router, other) else devs
    case _ => devs
  }

  /** `router.routingTable.push(route)` on a registered router. */
  function PushRoute(devs: seq<Device>, router: Device, route: Route): seq<Device>
  {
    Put(devs, router.(routingTable := router.routingTable + [route]))
  }

  /**
   * `addSimpleRoutesForRouterConnection(router1, router2, i1, i2)`: a LAN
   * of one router wired to the WAN of the other gives the WAN side a route
   * to that LAN through its own WAN address; no other pairing adds one.
   */
  function SimpleRoutes(devs: seq<Device>, r1: DeviceId, r2: DeviceId, i1: Iface, i2: Iface): seq<Device>
  {
    match (FindById(devs, r1), FindById(devs, r2))
    case (Some(a), Some(b)) =>
      if i1 == Lan && i2 == Wan then PushRoute(devs, b, LanRouteVia(a, b))
      else if i1 == Wan && i2 == Lan then PushRoute(devs, a, LanRouteVia(b, a))
      else devs
    case _ => devs
  }

  /**
   * The record at `k` rewritten to `rec` (its interface fields) and the
   * connection bound to `f` on the router `rid`.
   */
  function Wire(g: Reg, k: nat, rec: Connection, rid: DeviceId, f: Iface): Reg
    requires k < |g.conns|
  {
    Reg(g.conns[k := rec], BindOn(g.devices, rid, g.conns[k].id, f))
  }

  /**
   * `createRouterToDeviceConnectionWithInterface(router, other, f)`: both
   * must accept, the router on `f`; the basic create then runs, the
   * connection it returns is bound to `f` on the router and records `f` on
   * the router's side, a WAN wired to a cloud gets an address when it has
   * none, and the other device takes its addressing from that interface.
   */
  function RouterDeviceConnect(g: Reg, rid: DeviceId, oid: DeviceId, f: Iface, newId: ConnId): (r: Made)
    ensures !CanAccept(g.conns, FindById(g.devices, rid), Some(f)) || !Accepts(g, oid) ==> r == Made(None, g)
    ensures r.at == BasicConnect(g, rid, oid, newId).at || r == Made(None, g)
  {
    if !CanAccept(g.conns, FindById(g.devices, rid), Some(f)) || !Accepts(g, oid) then Made(None, g)
    else
      var m := BasicConnect(g, rid, oid, newId);
      if m.at.None? then m
      else
        var w := Wire(m.reg, m.at.value, MarkInterface(m.reg.conns[m.at.value], rid, f), rid, f);
        Made(m.at, Reg(w.conns, HostStep(CloudStep(w.devices, rid, oid, f), oid, rid, f)))
  }

  /** Some connection bound to `f` on the registered router `rid` leads to a device of kind `kind`. */
  predicate OnInterfaceOf(g: Reg, rid: DeviceId, f: Iface, kind: Kind)
  {
    match FindById(g.devices, rid)
    case None => false
    case Some(router) => HasDeviceOnInterface(Links(g.conns), g.devices, rid, router.connectionInterfaces, f, kind)
  }

  /**
   * `createRouterToRouterConnectionWithInterfaces(router1, router2, i1,
   * i2)`, with `go1`, `go2` the answers to the confirmation asked when a
   * requested WAN already leads to a cloud: both routers must accept on
   * their interfaces; the basic create runs, both bind the connection, it
   * records `i1` as `interface1` and `i2` as `interface2`, each router
   * wired on a WAN without address takes one, and the LAN/WAN routes are
   * added.
   */
  function RouterRouterConnect(g: Reg, r1: DeviceId, r2: DeviceId, i1: Iface, i2: Iface,
                               go1: bool, go2: bool, newId: ConnId): (r: Made)
    ensures !CanAccept(g.conns, FindById(g.devices, r1), Some(i1)) || !CanAccept(g.conns, FindById(g.devices, r2), Some(i2))
            ==> r == Made(None, g)
    ensures (i1 == Wan && OnInterfaceOf(g, r1, Wan, Cloud) && !go1) || (i2 == Wan && OnInterfaceOf(g, r2, Wan, Cloud) && !go2)
            ==> r.reg == g && r.at.None?
  {
    if PairAdmits(g, r1, r2, i1, i2, go1, go2) then PairWire(BasicConnect(g, r1, r2, newId), r1, r2, i1, i2)
    else Made(None, g)
  }

  /**
   * Both routers accept on their interfaces, and neither requested WAN
   * already leads to a cloud unless that confirmation was answered yes.
   */
  predicate PairAdmits(g: Reg, r1: DeviceId, r2: DeviceId, i1: Iface, i2: Iface, go1: bool, go2: bool)
  {
    CanAccept(g.conns, FindById(g.devices, r1), Some(i1)) && CanAccept(g.conns, FindById(g.devices, r2), Some(i2))
    && !(i1 == Wan && OnInterfaceOf(g, r1, Wan, Cloud) && !go1) && !(i2 == Wan && OnInterfaceOf(g, r2, Wan, Cloud) && !go2)
  }

  /** The router-to-router steps after the basic create, on the connection it returned. */
  function PairWire(m: Made, r1: DeviceId, r2: DeviceId, i1: Iface, i2: Iface): (r: Made)
    ensures r.at == m.at
  {
    if m.at.None? || m.at.value >= |m.reg.conns| then m
    else
      var k := m.at.value;
      var w1 := Wire(m.reg, k, m.reg.conns[k].(interface1 := Some(i1), interface2 := Some(i2)), r1, i1);
      var w2 := Wire(w1, k, w1.conns[k], r2, i2);
      var devs := WanStep(WanStep(w2.devices, r1, r2, i1), r2, r1, i2);
      Made(Some(k), Reg(w2.conns, SimpleRoutes(devs, r1, r2, i1, i2)))
  }

  /** `PairWire` on the connection at `k`, step by step: both bindings, then the addresses and routes. */
  lemma PairWireSteps(g: Reg, k: nat, r1: DeviceId, r2: DeviceId, i1: Iface, i2: Iface, b: Reg, last: seq<Device>)
    requires k < |g.conns|
    requires var w1 := Wire(g, k, g.conns[k].(interface1 := Some(i1), interface2 := Some(i2)), r1, i1);
      b == Wire(w1, k, w1.conns[k], r2, i2)
    requires last == SimpleRoutes(WanStep(WanStep(b.devices, r1, r2, i1), r2, r1, i2), r1, r2, i1, i2)
    ensures PairWire(Made(Some(k), g), r1, r2, i1, i2) == Made(Some(k), Reg(b.conns, last))
  {
  }

  // ---------------------------------------------------------------------
  // What the router connects keep and what they change

  /** Two registries that agree entry by entry on ids, kinds, connection lists and bindings. */
  predicate SameWiring(a: seq<Device>, b: seq<Device>)
  {
    |a| == |b|
    && forall k :: 0 <= k < |a| ==>
         b[k].id == a[k].id && b[k].kind == a[k].kind
         && b[k].connections == a[k].connections && b[k].connectionInterfaces == a[k].connectionInterfaces
  }

  lemma SameWiringTrans(a: seq<Device>, b: seq<Device>, c: seq<Device>)
    requires SameWiring(a, b) && SameWiring(b, c)
    ensures SameWiring(a, c)
  {
  }

  /** Consistency speaks only of the wiring. */
  lemma WiringKeepsConsistent(conns: seq<Connection>, a: seq<Device>, b: seq<Device>)
    requires Consistent(Reg(conns, a)) && SameWiring(a, b)
    ensures Consistent(Reg(conns, b))
  {
    assert UniqueIds(b) by {
      forall i, j | 0 <= i < j < |b| ensures b[i].id != b[j].id {
        assert a[i].id != a[j].id;
      }
    }
  }

  /** Rewriting a device's addressing or routes leaves the wiring as it was. */
  lemma PutWiring(devs: seq<Device>, e: Device)
    requires UniqueIds(devs)
    requires FindById(devs, e.id).Some? ==>
      var d := FindById(devs, e.id).value;
      d.kind == e.kind && d.connections == e.connections && d.connectionInterfaces == e.connectionInterfaces
    ensures SameWiring(devs, Put(devs, e)) && UniqueIds(Put(devs, e))
  {
    if Registered(devs, e.id) {
      ReplaceEntries(devs, e);
      forall k | 0 <= k < |devs| && devs[k].id == e.id
        ensures FindById(devs, e.id) == Some(devs[k])
      {
        LookupUnique(devs, k);
      }
    }
  }

  lemma CloudStepWiring(devs: seq<Device>, rid: DeviceId, oid: DeviceId, f: Iface)
    requires UniqueIds(devs)
    ensures SameWiring(devs, CloudStep(devs, rid, oid, f)) && UniqueIds(CloudStep(devs, rid, oid, f))
  {
    if FindById(devs, rid).Some? && FindById(devs, oid).Some? {
      var x, y := FindById(devs, rid).value, FindById(devs, oid).value;
      PutWiring(devs, WithWan(x, CloudWan(devs, x, y)));
    }
  }

  lemma HostStepWiring(devs: seq<Device>, did: DeviceId, rid: DeviceId, f: Iface)
    requires UniqueIds(devs)
    ensures SameWiring(devs, HostStep(devs, did, rid, f)) && UniqueIds(HostStep(devs, did, rid, f))
  {
    if FindById(devs, did).Some? && FindById(devs, rid).Some? {
      var x, y := FindById(devs, did).value, FindById(devs, rid).value;
      if HostSettingFor(devs, x, y, f).Some? {
        PutWiring(devs, Apply(x, HostSettingFor(devs, x, y, f).value));
      }
    }
  }

  lemma WanStepWiring(devs: seq<Device>, rid: DeviceId, oid: DeviceId, f: Iface)
    requires UniqueIds(devs)
    ensures SameWiring(devs, WanStep(devs, rid, oid, f)) && UniqueIds(WanStep(devs, rid, oid, f))
  {
    if FindById(devs, rid).Some? && FindById(devs, oid).Some? {
      var x, y := FindById(devs, rid).value, FindById(devs, oid).value;
      PutWiring(devs, WithWan(x, PeerWan(devs, x, y)));
    }
  }

  lemma SimpleRoutesWiring(devs: seq<Device>, r1: DeviceId, r2: DeviceId, i1: Iface, i2: Iface)
    requires UniqueIds(devs)
    ensures SameWiring(devs, SimpleRoutes(devs, r1, r2, i1, i2)) && UniqueIds(SimpleRoutes(devs, r1, r2, i1, i2))
  {
    if FindById(devs, r1).Some? && FindById(devs, r2).Some? {
      var x, y := FindById(devs, r1).value, FindById(devs, r2).value;
      PutWiring(devs, x.(routingTable := x.routingTable + [LanRouteVia(y, x)]));
      PutWiring(devs, y.(routingTable := y.routingTable + [LanRouteVia(x, y)]));
    }
  }

  /** Two registries that agree entry by entry on ids and kinds. */
  predicate KindsKept(a: seq<Device>, b: seq<Device>)
  {
    |a| == |b| && forall k :: 0 <= k < |a| ==> b[k].id == a[k].id && b[k].kind == a[k].kind
  }

  /** Every entry holding the id `id` is a router. */
  predicate RouterAt(devs: seq<Device>, id: DeviceId)
  {
    Registered(devs, id) && forall j :: 0 <= j < |devs| && devs[j].id == id ==> devs[j].kind == Router
  }

  lemma FoundRouter(devs: seq<Device>, id: DeviceId)
    requires UniqueIds(devs) && FindById(devs, id).Some? && FindById(devs, id).value.kind == Router
    ensures RouterAt(devs, id)
  {
    forall j | 0 <= j < |devs| && devs[j].id == id ensures devs[j].kind == Router {
      LookupUnique(devs, j);
    }
  }

  lemma RouterStays(a: seq<Device>, b: seq<Device>, id: DeviceId)
    requires RouterAt(a, id) && KindsKept(a, b)
    ensures RouterAt(b, id)
  {
    var j :| 0 <= j < |a| && a[j].id == id;
    assert b[j].id == id;
  }

  /** The basic create keeps every entry's id and kind. */
  lemma BasicConnectKinds(g: Reg, id1: DeviceId, id2: DeviceId, newId: ConnId)
    requires UniqueIds(g.devices)
    ensures KindsKept(g.devices, BasicConnect(g, id1, id2, newId).reg.devices)
  {
    if Accepts(g, id1) && Accepts(g, id2) && !Connected(Links(g.conns), id1, id2) {
      BasicConnectAdds(g, id1, id2, newId);
    }
  }

  /**
   * Wiring a connection of the router `rid` to one of its interfaces keeps
   * the registry consistent, the links, and every entry's id and kind.
   */
  lemma WireKeeps(g: Reg, k: nat, rec: Connection, rid: DeviceId, f: Iface)
    requires Consistent(g) && k < |g.conns| && LinkOf(rec) == LinkOf(g.conns[k])
    requires Touches(LinkOf(g.conns[k]), rid) && RouterAt(g.devices, rid)
    ensures var w := Wire(g, k, rec, rid, f);
      Consistent(w) && Links(w.conns) == Links(g.conns) && KindsKept(g.devices, w.devices)
  {
    var w := Wire(g, k, rec, rid, f);
    assert Links(w.conns) == Links(g.conns);
    InIncident(Links(g.conns), rid, g.conns[k].id);
    BindKeepsBindings(g.devices, rid, g.conns[k].id, f);
  }

  /** The address and route steps after wiring keep the registry consistent. */
  lemma HostStepsKeep(conns: seq<Connection>, devs: seq<Device>, rid: DeviceId, oid: DeviceId, f: Iface)
    requires Consistent(Reg(conns, devs))
    ensures Consistent(Reg(conns, HostStep(CloudStep(devs, rid, oid, f), oid, rid, f)))
  {
    CloudStepWiring(devs, rid, oid, f);
    var d := CloudStep(devs, rid, oid, f);
    HostStepWiring(d, oid, rid, f);
    WiringKeepsConsistent(conns, devs, d);
    WiringKeepsConsistent(conns, d, HostStep(d, oid, rid, f));
  }

  lemma PeerStepsKeep(conns: seq<Connection>, devs: seq<Device>, r1: DeviceId, r2: DeviceId, i1: Iface, i2: Iface)
    requires Consistent(Reg(conns, devs))
    ensures Consistent(Reg(conns, SimpleRoutes(WanStep(WanStep(devs, r1, r2, i1), r2, r1, i2), r1, r2, i1, i2)))
  {
    WanStepWiring(devs, r1, r2, i1);
    var d3 := WanStep(devs, r1, r2, i1);
    WanStepWiring(d3, r2, r1, i2);
    var d4 := WanStep(d3, r2, r1, i2);
    SimpleRoutesWiring(d4, r1, r2, i1, i2);
    WiringKeepsConsistent(conns, devs, d3);
    WiringKeepsConsistent(conns, d3, d4);
    WiringKeepsConsistent(conns, d4, SimpleRoutes(d4, r1, r2, i1, i2));
  }

  /**
   * A router-to-device connect on a router keeps the registry consistent
   * and, when the registry had one connection per pair, keeps that too.
   */
  lemma RouterDeviceConnectKeeps(g: Reg, rid: DeviceId, oid: DeviceId, f: Iface, newId: ConnId)
    requires Consistent(g) && FreshId(g.conns, newId)
    requires FindById(g.devices, rid).Some? && FindById(g.devices, rid).value.kind == Router
    ensures Consistent(RouterDeviceConnect(g, rid, oid, f, newId).reg)
    ensures PairsUnique(Links(g.conns)) ==> PairsUnique(Links(RouterDeviceConnect(g, rid, oid, f, newId).reg.conns))
  {
    if CanAccept(g.conns, FindById(g.devices, rid), Some(f)) && Accepts(g, oid) {
      var m := BasicConnect(g, rid, oid, newId);
      BasicConnectKeeps(g, rid, oid, newId);
      if m.at.Some? {
        var k := m.at.value;
        FoundRouter(g.devices, rid);
        BasicConnectKinds(g, rid, oid, newId);
        RouterStays(g.devices, m.reg.devices, rid);
        WireKeeps(m.reg, k, MarkInterface(m.reg.conns[k], rid, f), rid, f);
        var w := Wire(m.reg, k, MarkInterface(m.reg.conns[k], rid, f), rid, f);
        HostStepsKeep(w.conns, w.devices, rid, oid, f);
      }
    }
  }

  /**
   * Once the router is wired on `f`, `f` is in use on it and a second
   * request for `f` on that router is refused.
   */
  lemma RouterDeviceConnectUses(g: Reg, rid: DeviceId, oid: DeviceId, f: Iface, newId: ConnId, router: Device)
    requires router.id == rid && router.kind == Router
    ensures var r := RouterDeviceConnect(g, rid, oid, f, newId);
      r.at.Some? ==>
        r.at.value < |r.reg.conns| && UsedBy(r.reg.conns[r.at.value], rid) == Some(f)
        && f in UsedInterfaces(r.reg.conns, rid) && !CanAccept(r.reg.conns, Some(router), Some(f))
  {
    var r := RouterDeviceConnect(g, rid, oid, f, newId);
    if r.at.Some? {
      var m := BasicConnect(g, rid, oid, newId);
      var k := m.at.value;
      assert r.reg.conns == m.reg.conns[k := MarkInterface(m.reg.conns[k], rid, f)];
      assert Touches(LinkOf(m.reg.conns[k]), rid);
      UsedRefused(r.reg.conns, k, router, f);
    }
  }

  /** An interface some connection occupies on a router is refused to the next request. */
  lemma UsedRefused(conns: seq<Connection>, k: nat, router: Device, f: Iface)
    requires k < |conns| && UsedBy(conns[k], router.id) == Some(f) && router.kind == Router
    ensures f in UsedInterfaces(conns, router.id) && !CanAccept(conns, Some(router), Some(f))
  {
    assert UsedBy(conns[k], router.id).value == f;
  }

  /** A router-to-router connect on two routers keeps the registry consistent. */
  lemma RouterRouterConnectKeeps(g: Reg, r1: DeviceId, r2: DeviceId, i1: Iface, i2: Iface,
                                  go1: bool, go2: bool, newId: ConnId)
    requires Consistent(g) && FreshId(g.conns, newId)
    requires FindById(g.devices, r1).Some? && FindById(g.devices, r1).value.kind == Router
    requires FindById(g.devices, r2).Some? && FindById(g.devices, r2).value.kind == Router
    ensures Consistent(RouterRouterConnect(g, r1, r2, i1, i2, go1, go2, newId).reg)
    ensures PairsUnique(Links(g.conns)) ==> PairsUnique(Links(RouterRouterConnect(g, r1, r2, i1, i2, go1, go2, newId).reg.conns))
  {
    var r := RouterRouterConnect(g, r1, r2, i1, i2, go1, go2, newId);
    var m := BasicConnect(g, r1, r2, newId);
    if r != Made(None, g) {
      assert r == PairWire(m, r1, r2, i1, i2);
      BasicConnectKeeps(g, r1, r2, newId);
      FoundRouter(g.devices, r1);
      FoundRouter(g.devices, r2);
      BasicConnectKinds(g, r1, r2, newId);
      RouterStays(g.devices, m.reg.devices, r1);
      RouterStays(g.devices, m.reg.devices, r2);
      if m.at.Some? {
        assert Joins(LinkOf(m.reg.conns[m.at.value]), r1, r2);
      }
      PairWireKeeps(m, r1, r2, i1, i2);
    }
  }

  lemma PairWireKeeps(m: Made, r1: DeviceId, r2: DeviceId, i1: Iface, i2: Iface)
    requires Consistent(m.reg) && RouterAt(m.reg.devices, r1) && RouterAt(m.reg.devices, r2)
    requires m.at.Some? && m.at.value < |m.reg.conns| ==> Joins(LinkOf(m.reg.conns[m.at.value]), r1, r2)
    ensures var r := PairWire(m, r1, r2, i1, i2);
      Consistent(r.reg) && Links(r.reg.conns) == Links(m.reg.conns)
  {
    if m.at.Some? && m.at.value < |m.reg.conns| {
      var k := m.at.value;
      var rec := m.reg.conns[k].(interface1 := Some(i1), interface2 := Some(i2));
      WireKeeps(m.reg, k, rec, r1, i1);
      var w1 := Wire(m.reg, k, rec, r1, i1);
      RouterStays(m.reg.devices, w1.devices, r2);
      WireKeeps(w1, k, w1.conns[k], r2, i2);
      var w2 := Wire(w1, k, w1.conns[k], r2, i2);
      PeerStepsKeep(w2.conns, w2.devices, r1, r2, i1, i2);
    }
  }

  /**
   * After a router-to-router connect the record holds `i1` in `interface1`
   * and `i2` in `interface2`: a new or same-way connection occupies `i1` on
   * `router1` and `i2` on `router2`, while an earlier connection made the
   * other way round is recorded with the two swapped.
   */
  lemma RouterRouterConnectUses(g: Reg, r1: DeviceId, r2: DeviceId, i1: Iface, i2: Iface,
                                go1: bool, go2: bool, newId: ConnId)
    requires r1 != r2
    ensures var r := RouterRouterConnect(g, r1, r2, i1, i2, go1, go2, newId);
      r.at.Some? ==>
        r.at.value < |r.reg.conns|
        && var c := r.reg.conns[r.at.value];
        (r.at == Some(|g.conns|) ==> c.device1Id == r1)
        && (c.device1Id == r1 ==> UsedBy(c, r1) == Some(i1) && UsedBy(c, r2) == Some(i2))
        && (c.device1Id == r2 ==> UsedBy(c, r1) == Some(i2) && UsedBy(c, r2) == Some(i1))
  {
    if PairAdmits(g, r1, r2, i1, i2, go1, go2) {
      var m := BasicConnect(g, r1, r2, newId);
      if m.at.Some? {
        assert m.at.value < |m.reg.conns| && Joins(LinkOf(m.reg.conns[m.at.value]), r1, r2);
        assert m.at == Some(|g.conns|) ==> m.reg.conns[m.at.value].device1Id == r1;
        PairWireRecord(m, r1, r2, i1, i2);
      }
    }
  }

  /** The record `PairWire` leaves at the connection it wired. */
  lemma PairWireRecord(m: Made, r1: DeviceId, r2: DeviceId, i1: Iface, i2: Iface)
    requires m.at.Some? && m.at.value < |m.reg.conns|
    ensures var r := PairWire(m, r1, r2, i1, i2);
      |r.reg.conns| == |m.reg.conns|
      && r.reg.conns[m.at.value] == m.reg.conns[m.at.value].(interface1 := Some(i1), interface2 := Some(i2))
  {
  }

  /**
   * A LAN of `router1` wired to the WAN of `router2` gives `router2` a
   * route to that LAN's address.
   */
  lemma SimpleRoutesReachLan(devs: seq<Device>, r1: DeviceId, r2: DeviceId)
    requires UniqueIds(devs) && r1 != r2 && FindById(devs, r1).Some? && FindById(devs, r2).Some?
    requires var a := FindById(devs, r1).value; a.interfaces.lan.ip.Quad? && a.interfaces.lan.subnetMask != Unset
    ensures var r := SimpleRoutes(devs, r1, r2, Lan, Wan);
      FindById(r, r2).Some? && Reachability.HasRouteTo(FindById(r, r2).value, FindById(devs, r1).value.interfaces.lan.ip)
  {
    var a, b := FindById(devs, r1).value, FindById(devs, r2).value;
    var e := b.(routingTable := b.routingTable + [LanRouteVia(a, b)]);
    assert Registered(devs, r2);
    ReplaceEntries(devs, e);
    var r := SimpleRoutes(devs, r1, r2, Lan, Wan);
    var i := IndexOf(devs, r2);
    LookupUnique(r, i);
    LanRouteReachesLan(a, b, b.routingTable);
  }
}
