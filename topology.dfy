/**
 * The connection registry of `ConnectionManager` as values: connection
 * records, the projection the decision procedures read, the connection
 * bookkeeping each device carries, the admission test
 * `canAcceptConnection` with its interface accounting, and the effect of
 * adding and removing a connection on the device records.
 */
module Topology {
  import opened Options
  import opened Addressing
  import opened Devices

  /** `type: 'direct' | 'routed'` of a connection record. */
  datatype ConnType = Direct | Routed

  /**
   * A connection record `{id, device1Id, device2Id, interface1?,
   * interface2?, type, canCommunicate}`; the timestamp is left out.
   */
  datatype Connection = Connection(
    id: ConnId, device1Id: DeviceId, device2Id: DeviceId,
    interface1: Option<Iface>, interface2: Option<Iface>,
    ctype: ConnType, canCommunicate: bool)

  /** What the path finder and the decision procedures read of a connection. */
  datatype Link = Link(id: ConnId, end1: DeviceId, end2: DeviceId)

  function LinkOf(c: Connection): Link { Link(c.id, c.device1Id, c.device2Id) }

  function Links(conns: seq<Connection>): (r: seq<Link>)
    ensures |r| == |conns| && forall i :: 0 <= i < |conns| ==> r[i] == LinkOf(conns[i])
  {
    seq(|conns|, i requires 0 <= i < |conns| => LinkOf(conns[i]))
  }

  /** A snapshot of the network: the registry's links and the device registry. */
  datatype Net = Net(links: seq<Link>, devices: seq<Device>)

  predicate Joins(l: Link, a: DeviceId, b: DeviceId)
  {
    (l.end1 == a && l.end2 == b) || (l.end1 == b && l.end2 == a)
  }

  predicate Touches(l: Link, id: DeviceId) { l.end1 == id || l.end2 == id }

  /** `areDevicesConnected(d1, d2)`: some registered connection joins the two. */
  function Connected(links: seq<Link>, a: DeviceId, b: DeviceId): (r: bool)
    ensures r <==> exists i :: 0 <= i < |links| && Joins(links[i], a, b)
  {
    FirstWhere(links, l => Joins(l, a, b)).Some?
  }

  lemma ConnectedSymmetric(links: seq<Link>, a: DeviceId, b: DeviceId)
    ensures Connected(links, a, b) == Connected(links, b, a)
  {
    if Connected(links, a, b) {
      var i :| 0 <= i < |links| && Joins(links[i], a, b);
      assert Joins(links[i], b, a);
    }
    if Connected(links, b, a) {
      var i :| 0 <= i < |links| && Joins(links[i], b, a);
      assert Joins(links[i], a, b);
    }
  }

  /** The index of the first connection of the unordered pair `{a, b}`. */
  function FindPair(conns: seq<Connection>, a: DeviceId, b: DeviceId): (r: Option<nat>)
    ensures r.None? <==> !Connected(Links(conns), a, b)
    ensures r.Some? ==> r.value < |conns| && Joins(LinkOf(conns[r.value]), a, b)
  {
    var r := FirstWhere(conns, (c: Connection) => Joins(LinkOf(c), a, b));
    assert r.None? ==> forall i :: 0 <= i < |conns| ==> !Joins(Links(conns)[i], a, b);
    r
  }

  /** The connections touching a device, counted as `filter(...).length`. */
  function Degree(conns: seq<Connection>, id: DeviceId): (n: nat)
    ensures n <= |conns|
    ensures n == 0 <==> forall i :: 0 <= i < |conns| ==> !Touches(LinkOf(conns[i]), id)
    decreases |conns|
  {
    if conns == [] then 0
    else (if Touches(LinkOf(conns[0]), id) then 1 else 0) + Degree(conns[1..], id)
  }

  // ---------------------------------------------------------------------
  // Router interfaces in use and free

  /**
   * The interface a connection occupies on the router `id`: its
   * `interface1` when the router is `device1` and that field is set,
   * otherwise its `interface2` when the router is `device2`.
   */
  function UsedBy(c: Connection, id: DeviceId): Option<Iface>
  {
    if c.device1Id == id && c.interface1.Some? then c.interface1
    else if c.device2Id == id && c.interface2.Some? then c.interface2
    else None
  }

  /** `getActuallyUsedRouterInterfaces(router)` as a set. */
  function UsedInterfaces(conns: seq<Connection>, id: DeviceId): set<Iface>
  {
    set i | 0 <= i < |conns| && UsedBy(conns[i], id).Some? :: UsedBy(conns[i], id).value
  }

  /**
   * The interfaces a router offers, in the order `getFreeRouterInterfaces`
   * lists them: `lan` unless its address is `'N/A'`, `lan2` when also
   * enabled, and `wan` always.
   */
  function Offered(d: Device): seq<Iface>
  {
    (if d.interfaces.lan.ip != NA then [Lan] else [])
    + (if d.interfaces.lan2.ip != NA && d.interfaces.lan2Enabled then [Lan2] else [])
    + [Wan]
  }

  /** `s.filter(f => !used.has(f))` */
  function Without(s: seq<Iface>, used: set<Iface>): (r: seq<Iface>)
    ensures |r| <= |s|
    ensures forall f :: f in r <==> f in s && f !in used
    decreases |s|
  {
    if s == [] then []
    else if s[0] in used then Without(s[1..], used)
    else [s[0]] + Without(s[1..], used)
  }

  /** `getFreeRouterInterfaces(router)`. */
  function FreeInterfaces(conns: seq<Connection>, d: Device): (r: seq<Iface>)
    ensures forall f :: f in r <==> f in Offered(d) && f !in UsedInterfaces(conns, d.id)
    ensures Wan in r <==> Wan !in UsedInterfaces(conns, d.id)
    ensures Lan in r <==> d.interfaces.lan.ip != NA && Lan !in UsedInterfaces(conns, d.id)
    ensures Lan2 in r <==>
      d.interfaces.lan2.ip != NA && d.interfaces.lan2Enabled && Lan2 !in UsedInterfaces(conns, d.id)
  {
    Without(Offered(d), UsedInterfaces(conns, d.id))
  }

  /**
   * `canAcceptConnection(device, requestedInterface)`: no device is
   * refused outright only when it is a switch; a router takes at most three
   * connections and, when an interface is requested, only a free one; any
   * other device takes a single connection.
   */
  function CanAccept(conns: seq<Connection>, device: Option<Device>, requested: Option<Iface>): (r: bool)
    ensures device.None? ==> !r
    ensures device.Some? && device.value.kind == Switch ==> r
    ensures device.Some? && device.value.kind == Router && Degree(conns, device.value.id) >= 3 ==> !r
    ensures device.Some? && device.value.kind == Router && Degree(conns, device.value.id) < 3 ==>
      (r <==> requested.None? || requested.value in FreeInterfaces(conns, device.value))
    ensures device.Some? && device.value.kind == Router && Degree(conns, device.value.id) < 3 && requested == Some(Wan) ==>
      (r <==> Wan !in UsedInterfaces(conns, device.value.id))
    ensures device.Some? && device.value.kind != Switch && device.value.kind != Router ==>
      (r <==> forall i :: 0 <= i < |conns| ==> !Touches(LinkOf(conns[i]), device.value.id))
  {
    match device
    case None => false
    case Some(d) =>
      if d.kind == Switch then true
      else if d.kind == Router then
        if Degree(conns, d.id) >= 3 then false
        else if requested.Some? then requested.value in FreeInterfaces(conns, d)
        else true
      else Degree(conns, d.id) < 1
  }

  // ---------------------------------------------------------------------
  // The bookkeeping every device carries

  /** The ids a connection contributes to the `connections` list of device `id`. */
  function Ends(l: Link, id: DeviceId): seq<ConnId>
  {
    (if l.end1 == id then [l.id] else []) + (if l.end2 == id then [l.id] else [])
  }

  /**
   * The `connections` list a device has when it is kept in step with the
   * registry: the ids of the connections touching it, in registry order,
   * once per end (a connection from a device to itself twice).
   */
  function Incident(links: seq<Link>, id: DeviceId): seq<ConnId>
    decreases |links|
  {
    if links == [] then [] else Incident(links[..|links| - 1], id) + Ends(links[|links| - 1], id)
  }

  predicate UniqueLinkIds(links: seq<Link>)
  {
    forall i, j :: 0 <= i < j < |links| ==> links[i].id != links[j].id
  }

  /** Every device's `connections` list is exactly what the registry says. */
  predicate Linked(links: seq<Link>, devs: seq<Device>)
  {
    UniqueLinkIds(links) && forall i :: 0 <= i < |devs| ==> devs[i].connections == Incident(links, devs[i].id)
  }

  predicate UniqueKeys(bs: seq<Binding>)
  {
    forall i, j :: 0 <= i < j < |bs| ==> bs[i].conn != bs[j].conn
  }

  /**
   * Only routers carry `connectionInterfaces`; its keys are distinct and
   * are connection ids of the router.
   */
  predicate BindingsSubset(devs: seq<Device>)
  {
    forall i :: 0 <= i < |devs| ==>
      (devs[i].kind != Router ==> devs[i].connectionInterfaces == [])
      && UniqueKeys(devs[i].connectionInterfaces)
      && forall k :: 0 <= k < |devs[i].connectionInterfaces| ==>
           devs[i].connectionInterfaces[k].conn in devs[i].connections
  }

  /** At most one connection per unordered pair of devices. */
  predicate PairsUnique(links: seq<Link>)
  {
    forall i, j :: 0 <= i < j < |links| ==> !Joins(links[j], links[i].end1, links[i].end2)
  }

  lemma {:induction false} IncidentConcat(a: seq<Link>, b: seq<Link>, id: DeviceId)
    ensures Incident(a + b, id) == Incident(a, id) + Incident(b, id)
    decreases |b|
  {
    if b == [] {
      assert a + b == a;
    } else {
      var b' := b[..|b| - 1];
      assert (a + b)[..|a + b| - 1] == a + b';
      IncidentConcat(a, b', id);
    }
  }

  lemma {:induction false} InIncident(links: seq<Link>, id: DeviceId, x: ConnId)
    ensures x in Incident(links, id) <==> exists i :: 0 <= i < |links| && links[i].id == x && Touches(links[i], id)
    decreases |links|
  {
    if links != [] {
      var init := links[..|links| - 1];
      InIncident(init, id, x);
      if x in Incident(init, id) {
        var i :| 0 <= i < |init| && init[i].id == x && Touches(init[i], id);
        assert links[i] == init[i];
      }
      if exists i :: 0 <= i < |links| && links[i].id == x && Touches(links[i], id) {
        var i :| 0 <= i < |links| && links[i].id == x && Touches(links[i], id);
        if i < |links| - 1 {
          assert init[i] == links[i];
        }
      }
    }
  }

  // ---------------------------------------------------------------------
  // Adding and removing connection ids and interface bindings

  /** `list.splice(list.indexOf(x), 1)`, which does nothing when `x` is absent. */
  function RemoveFirst(s: seq<ConnId>, x: ConnId): (r: seq<ConnId>)
    ensures x !in s ==> r == s
    ensures x in s ==> |r| == |s| - 1
    ensures forall y :: y in r ==> y in s
    ensures forall y :: y != x ==> (y in r <==> y in s)
    decreases |s|
  {
    if s == [] then []
    else if s[0] == x then s[1..]
    else [s[0]] + RemoveFirst(s[1..], x)
  }

  lemma {:induction false} RemoveFirstPast(a: seq<ConnId>, b: seq<ConnId>, x: ConnId)
    requires x !in a
    ensures RemoveFirst(a + [x] + b, x) == a + b
    decreases |a|
  {
    var s := a + [x] + b;
    if a == [] {
      assert s[0] == x && s[1..] == b;
    } else {
      assert s[0] == a[0] && s[1..] == a[1..] + [x] + b;
      RemoveFirstPast(a[1..], b, x);
      assert a + b == [a[0]] + (a[1..] + b);
    }
  }

  /** `connectionInterfaces[cid] = iface`: overwrites in place or appends. */
  function SetBinding(bs: seq<Binding>, cid: ConnId, iface: Iface): (r: seq<Binding>)
    ensures UniqueKeys(bs) ==> UniqueKeys(r)
    ensures Binding(cid, iface) in r
    ensures forall b :: b in r && b.conn != cid <==> b in bs && b.conn != cid
    decreases |bs|
  {
    if bs == [] then [Binding(cid, iface)]
    else if bs[0].conn == cid then [Binding(cid, iface)] + bs[1..]
    else [bs[0]] + SetBinding(bs[1..], cid, iface)
  }

  /** `delete connectionInterfaces[cid]`. */
  function DeleteKey(bs: seq<Binding>, cid: ConnId): (r: seq<Binding>)
    ensures UniqueKeys(bs) ==> UniqueKeys(r)
    ensures forall b :: b in r <==> b in bs && b.conn != cid
    decreases |bs|
  {
    if bs == [] then []
    else if bs[0].conn == cid then DeleteKey(bs[1..], cid)
    else [bs[0]] + DeleteKey(bs[1..], cid)
  }

  /** `device.connections.push(cid)` on the registered device `id`. */
  function PushConnId(devs: seq<Device>, id: DeviceId, cid: ConnId): seq<Device>
    requires Registered(devs, id)
  {
    var d := devs[IndexOf(devs, id)];
    Replace(devs, d.(connections := d.connections + [cid]))
  }

  /** Both endpoints record the new connection, `device1` first. */
  function Attach(devs: seq<Device>, l: Link): seq<Device>
    requires Registered(devs, l.end1) && Registered(devs, l.end2)
  {
    PushConnId(PushConnId(devs, l.end1, l.id), l.end2, l.id)
  }

  /** The splice of `cid` out of the `connections` list of device `id`, when registered. */
  function DropConnId(devs: seq<Device>, id: DeviceId, cid: ConnId): seq<Device>
  {
    match FindById(devs, id)
    case None => devs
    case Some(d) => Replace(devs, d.(connections := RemoveFirst(d.connections, cid)))
  }

  /** `delete connectionInterfaces[cid]` on device `id` when it is a registered router. */
  function DropBinding(devs: seq<Device>, id: DeviceId, cid: ConnId): seq<Device>
  {
    match FindById(devs, id)
    case None => devs
    case Some(d) =>
      if d.kind == Router then Replace(devs, d.(connectionInterfaces := DeleteKey(d.connectionInterfaces, cid)))
      else devs
  }

  /** Both endpoints splice the connection id out of their `connections` lists, `device1` first. */
  function Unlist(devs: seq<Device>, l: Link): seq<Device>
  {
    DropConnId(DropConnId(devs, l.end1, l.id), l.end2, l.id)
  }

  /** What `removeConnection(c)` does to the device records: the lists first, then the bindings. */
  function Detach(devs: seq<Device>, l: Link): seq<Device>
  {
    DropBinding(DropBinding(Unlist(devs, l), l.end1, l.id), l.end2, l.id)
  }

  /** The binding is stored on the router `id`, which must be registered. */
  function Bind(devs: seq<Device>, id: DeviceId, cid: ConnId, iface: Iface): seq<Device>
    requires Registered(devs, id)
  {
    var d := devs[IndexOf(devs, id)];
    Replace(devs, d.(connectionInterfaces := SetBinding(d.connectionInterfaces, cid, iface)))
  }
}
