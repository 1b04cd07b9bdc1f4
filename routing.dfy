/**
 * The routing helpers of `ConnectionManager` as functions on values:
 * `routeExists`, `getInterfaceForDevice`, `getInterfaceForRouterConnection`,
 * `doesRouterHaveDeviceOnInterface`, the routes `autoGenerateRoutesForRouter`
 * proposes and appends, and the single route
 * `addSimpleRoutesForRouterConnection` pushes.
 */
module Routing {
  import opened Options
  import opened Addressing
  import opened Devices
  import opened Topology
  import Reachability

  // ---------------------------------------------------------------------
  // routeExists

  /** Two routes with the same `network`, `mask` and `gateway`. */
  predicate SameKey(a: Route, b: Route)
  {
    a.network == b.network && a.mask == b.mask && a.gateway == b.gateway
  }

  /** `routeExists(routingTable, route)`: some entry has the route's key. */
  predicate RouteExists(table: seq<Route>, route: Route)
  {
    exists i :: 0 <= i < |table| && SameKey(table[i], route)
  }

  lemma RouteExistsAfterPush(table: seq<Route>, x: Route, route: Route)
    ensures RouteExists(table + [x], route) <==> RouteExists(table, route) || SameKey(x, route)
  {
    var t := table + [x];
    if RouteExists(t, route) {
      var i :| 0 <= i < |t| && SameKey(t[i], route);
      if i < |table| { assert table[i] == t[i]; }
    }
    if RouteExists(table, route) {
      var i :| 0 <= i < |table| && SameKey(table[i], route);
      assert t[i] == table[i];
    }
    assert t[|table|] == x;
  }

  lemma RouteExistsGrows(table: seq<Route>, more: seq<Route>, route: Route)
    requires RouteExists(table, route)
    ensures RouteExists(table + more, route)
  {
    var i :| 0 <= i < |table| && SameKey(table[i], route);
    assert (table + more)[i] == table[i];
  }

  /**
   * The candidates pushed one after the other, each only when no entry of
   * the table as it stands then has its key; the result is what was pushed.
   */
  function AppendMissing(table: seq<Route>, cands: seq<Route>): (added: seq<Route>)
    ensures |added| <= |cands|
    decreases |cands|
  {
    if cands == [] then []
    else if RouteExists(table, cands[0]) then AppendMissing(table, cands[1..])
    else [cands[0]] + AppendMissing(table + [cands[0]], cands[1..])
  }

  /** Only candidates are pushed. */
  lemma {:induction false} AppendMissingFromCandidates(table: seq<Route>, cands: seq<Route>)
    ensures forall r :: r in AppendMissing(table, cands) ==> r in cands
    decreases |cands|
  {
    if cands != [] {
      if RouteExists(table, cands[0]) {
        AppendMissingFromCandidates(table, cands[1..]);
      } else {
        AppendMissingFromCandidates(table + [cands[0]], cands[1..]);
      }
    }
  }

  /** No pushed route has the key of an entry the table had before. */
  lemma {:induction false} AppendMissingFresh(table: seq<Route>, cands: seq<Route>)
    ensures forall r :: r in AppendMissing(table, cands) ==> !RouteExists(table, r)
    decreases |cands|
  {
    if cands != [] {
      var c := cands[0];
      if RouteExists(table, c) {
        AppendMissingFresh(table, cands[1..]);
      } else {
        var rest := AppendMissing(table + [c], cands[1..]);
        AppendMissingFresh(table + [c], cands[1..]);
        forall r | r in rest ensures !RouteExists(table, r) {
          RouteExistsAfterPush(table, c, r);
        }
      }
    }
  }

  predicate DistinctKeys(rs: seq<Route>)
  {
    forall i, j :: 0 <= i < j < |rs| ==> !SameKey(rs[i], rs[j])
  }

  /** The pushed routes have pairwise different keys. */
  lemma {:induction false} AppendMissingDistinct(table: seq<Route>, cands: seq<Route>)
    ensures DistinctKeys(AppendMissing(table, cands))
    decreases |cands|
  {
    if cands != [] {
      var c := cands[0];
      if RouteExists(table, c) {
        assert AppendMissing(table, cands) == AppendMissing(table, cands[1..]);
        AppendMissingDistinct(table, cands[1..]);
      } else {
        var rest := AppendMissing(table + [c], cands[1..]);
        var added := [c] + rest;
        assert AppendMissing(table, cands) == added;
        AppendMissingDistinct(table + [c], cands[1..]);
        AppendMissingFresh(table + [c], cands[1..]);
        forall i, j | 0 <= i < j < |added| ensures !SameKey(added[i], added[j]) {
          assert added[j] == rest[j - 1] && rest[j - 1] in rest;
          if i == 0 {
            assert added[0] == c;
            RouteExistsAfterPush(table, c, rest[j - 1]);
            assert !RouteExists(table + [c], rest[j - 1]);
          } else {
            assert added[i] == rest[i - 1];
          }
        }
      }
    }
  }

  /** Afterwards the table has the key of every candidate. */
  lemma {:induction false} AppendMissingCovers(table: seq<Route>, cands: seq<Route>)
    ensures forall c :: c in cands ==> RouteExists(table + AppendMissing(table, cands), c)
    decreases |cands|
  {
    if cands != [] {
      var c := cands[0];
      if RouteExists(table, c) {
        var rest := AppendMissing(table, cands[1..]);
        AppendMissingCovers(table, cands[1..]);
        RouteExistsGrows(table, rest, c);
      } else {
        var rest := AppendMissing(table + [c], cands[1..]);
        AppendMissingCovers(table + [c], cands[1..]);
        assert table + ([c] + rest) == (table + [c]) + rest;
        RouteExistsAfterPush(table, c, c);
        RouteExistsGrows(table + [c], rest, c);
      }
    }
  }

  /** A table that already has the key of every candidate takes nothing more. */
  lemma {:induction false} AppendMissingSaturated(table: seq<Route>, cands: seq<Route>)
    requires forall i :: 0 <= i < |cands| ==> RouteExists(table, cands[i])
    ensures AppendMissing(table, cands) == []
    decreases |cands|
  {
    if cands != [] {
      assert RouteExists(table, cands[0]);
      assert forall i :: 0 <= i < |cands[1..]| ==> RouteExists(table, cands[1..][i]) by {
        forall i | 0 <= i < |cands[1..]| ensures RouteExists(table, cands[1..][i]) {
          assert cands[1..][i] == cands[i + 1];
        }
      }
      AppendMissingSaturated(table, cands[1..]);
    }
  }

  /** Pushing the candidates of `a` and then those of `b` is pushing those of `a + b`. */
  lemma {:induction false} AppendMissingConcat(table: seq<Route>, a: seq<Route>, b: seq<Route>)
    ensures AppendMissing(table, a + b) == AppendMissing(table, a) + AppendMissing(table + AppendMissing(table, a), b)
    decreases |a|
  {
    if a == [] {
      assert a + b == b;
      assert table + [] == table;
    } else {
      assert (a + b)[0] == a[0] && (a + b)[1..] == a[1..] + b;
      if RouteExists(table, a[0]) {
        assert AppendMissing(table, a + b) == AppendMissing(table, a[1..] + b);
        assert AppendMissing(table, a) == AppendMissing(table, a[1..]);
        AppendMissingConcat(table, a[1..], b);
      } else {
        var t := table + [a[0]];
        var x := AppendMissing(t, a[1..]);
        var y := AppendMissing(t + x, b);
        assert AppendMissing(table, a + b) == [a[0]] + AppendMissing(t, a[1..] + b);
        assert AppendMissing(table, a) == [a[0]] + x;
        AppendMissingConcat(t, a[1..], b);
        assert table + ([a[0]] + x) == t + x;
        assert [a[0]] + (x + y) == ([a[0]] + x) + y;
      }
    }
  }

  // ---------------------------------------------------------------------
  // getInterfaceForDevice

  /**
   * The device lies on the network of the router interface `i`: both
   * addresses set, and the networks equal with a missing mask read as /24.
   */
  predicate OnInterface(i: Interface, d: Device)
  {
    Truthy(i.ip) && Truthy(d.ip)
    && NetworkFromIP(i.ip, MaskOr24(i.subnetMask)) == NetworkFromIP(d.ip, MaskOr24(d.subnetMask))
  }

  /** `getInterfaceForDevice(router, device)`: LAN first, then WAN, LAN by default. */
  function InterfaceForDevice(router: Device, d: Device): Iface
  {
    if OnInterface(router.interfaces.lan, d) then Lan
    else if OnInterface(router.interfaces.wan, d) then Wan
    else Lan
  }

  function InterfaceOf(router: Device, f: Iface): Interface
  {
    match f
    case Wan => router.interfaces.wan
    case Lan => router.interfaces.lan
    case Lan2 => router.interfaces.lan2
  }

  /**
   * The interface chosen for a device is one whose network holds it when
   * either does, and WAN is chosen exactly when only the WAN network does.
   */
  lemma InterfaceForDeviceSound(router: Device, d: Device)
    ensures OnInterface(router.interfaces.lan, d) || OnInterface(router.interfaces.wan, d) ==>
      OnInterface(InterfaceOf(router, InterfaceForDevice(router, d)), d)
    ensures InterfaceForDevice(router, d) == Wan <==>
      !OnInterface(router.interfaces.lan, d) && OnInterface(router.interfaces.wan, d)
    ensures InterfaceForDevice(router, d) != Lan2
  {
  }

  // ---------------------------------------------------------------------
  // getInterfaceForRouterConnection and doesRouterHaveDeviceOnInterface

  /** The end of `l` that is not `id`, as `conn.device1Id === id ? device2Id : device1Id`. */
  function FarEnd(l: Link, id: DeviceId): DeviceId
  {
    if l.end1 == id then l.end2 else l.end1
  }

  function FindConn(links: seq<Link>, cid: ConnId): (r: Option<Link>)
    ensures r.Some? ==> r.value in links && r.value.id == cid
    ensures r.None? ==> forall i :: 0 <= i < |links| ==> links[i].id != cid
  {
    match FirstWhere(links, (l: Link) => l.id == cid)
    case None => None
    case Some(i) => Some(links[i])
  }

  /** A binding of router `rid` whose connection is registered and leads to `other`. */
  predicate BindsTo(links: seq<Link>, rid: DeviceId, b: Binding, other: DeviceId)
  {
    FindConn(links, b.conn).Some? && FarEnd(FindConn(links, b.conn).value, rid) == other
  }

  /** The first entry of `connectionInterfaces` whose connection leads to `other`. */
  function BoundInterface(links: seq<Link>, rid: DeviceId, bs: seq<Binding>, other: DeviceId): (r: Option<Iface>)
    ensures r.None? <==> forall k :: 0 <= k < |bs| ==> !BindsTo(links, rid, bs[k], other)
    ensures r.Some? ==> exists k :: 0 <= k < |bs| && BindsTo(links, rid, bs[k], other) && bs[k].iface == r.value
                                    && forall j :: 0 <= j < k ==> !BindsTo(links, rid, bs[j], other)
  {
    match FirstWhere(bs, (b: Binding) => BindsTo(links, rid, b, other))
    case None => None
    case Some(k) => Some(bs[k].iface)
  }

  /** The WAN of `a` lies on the LAN network of `b`. */
  predicate WanOnLanOf(a: Device, b: Device)
  {
    Configured(a.interfaces.wan.ip) && Present(b.interfaces.lan.ip)
    && NetworkFromIP(a.interfaces.wan.ip, a.interfaces.wan.subnetMask)
       == NetworkFromIP(b.interfaces.lan.ip, b.interfaces.lan.subnetMask)
  }

  /**
   * `getInterfaceForRouterConnection(router, otherRouter)`: an existing
   * binding towards the other router wins; otherwise WAN when this
   * router's WAN sits on the other's LAN, LAN when the other's WAN sits on
   * this router's LAN, and LAN by default.
   */
  function InterfaceForRouterConnection(links: seq<Link>, router: Device, other: Device): (r: Iface)
    ensures BoundInterface(links, router.id, router.connectionInterfaces, other.id).Some? ==>
      r == BoundInterface(links, router.id, router.connectionInterfaces, other.id).value
    ensures BoundInterface(links, router.id, router.connectionInterfaces, other.id).None? ==>
      (r == Wan <==> WanOnLanOf(router, other))
  {
    match BoundInterface(links, router.id, router.connectionInterfaces, other.id)
    case Some(f) => f
    case None =>
      if WanOnLanOf(router, other) then Wan
      else if WanOnLanOf(other, router) then Lan
      else Lan
  }

  /**
   * Two unbound routers where only the first's WAN sits on the second's
   * LAN agree on the link: WAN on the first, LAN on the second.
   */
  lemma RouterInterfacesComplement(links: seq<Link>, r1: Device, r2: Device)
    requires r1.connectionInterfaces == [] && r2.connectionInterfaces == []
    requires WanOnLanOf(r1, r2) && !WanOnLanOf(r2, r1)
    ensures InterfaceForRouterConnection(links, r1, r2) == Wan
    ensures InterfaceForRouterConnection(links, r2, r1) == Lan
  {
  }

  /** A binding of router `rid` on `f` whose connection leads to a registered device of kind `kind`. */
  predicate HoldsOn(links: seq<Link>, devs: seq<Device>, rid: DeviceId, b: Binding, f: Iface, kind: Kind)
  {
    b.iface == f && FindConn(links, b.conn).Some?
    && var d := FindById(devs, FarEnd(FindConn(links, b.conn).value, rid)); d.Some? && d.value.kind == kind
  }

  /** `doesRouterHaveDeviceOnInterface(router, interfaceType, deviceType)` */
  function HasDeviceOnInterface(links: seq<Link>, devs: seq<Device>, rid: DeviceId, bs: seq<Binding>,
                                f: Iface, kind: Kind): (r: bool)
    ensures r <==> exists k :: 0 <= k < |bs| && HoldsOn(links, devs, rid, bs[k], f, kind)
  {
    FirstWhere(bs, b => HoldsOn(links, devs, rid, b, f, kind)).Some?
  }

  // ---------------------------------------------------------------------
  // autoGenerateRoutesForRouter

  /** The connected route of a router interface whose address is set and not `'N/A'`. */
  function InterfaceRoute(i: Interface, f: Iface): seq<Route>
  {
    if Present(i.ip) then
      [Route(NetworkFromIP(i.ip, MaskOr24(i.subnetMask)), MaskOr24(i.subnetMask), Zero, f, Some(0), None)]
    else []
  }

  /** The routes to the router's own LAN and WAN networks. */
  function LocalRoutes(router: Device): seq<Route>
  {
    InterfaceRoute(router.interfaces.lan, Lan) + InterfaceRoute(router.interfaces.wan, Wan)
  }

  /** The device at the far end of a connection touching `rid`. */
  function PeerOf(l: Link, rid: DeviceId): Option<DeviceId>
  {
    if l.end1 == rid then Some(l.end2) else if l.end2 == rid then Some(l.end1) else None
  }

  /**
   * The devices connected to the router, one per connection in registry
   * order, skipping ids the registry does not know.
   */
  function ConnectedDevices(links: seq<Link>, devs: seq<Device>, rid: DeviceId): (r: seq<Device>)
    ensures |r| <= |links|
    decreases |links|
  {
    if links == [] then [] else PeerEntry(links[0], devs, rid) + ConnectedDevices(links[1..], devs, rid)
  }

  /** The registered device at the far end of `l` from `rid`, if any. */
  function PeerEntry(l: Link, devs: seq<Device>, rid: DeviceId): seq<Device>
  {
    match PeerOf(l, rid)
    case None => []
    case Some(o) => (match FindById(devs, o) case None => [] case Some(d) => [d])
  }

  lemma ConnectedDevicesStep(links: seq<Link>, devs: seq<Device>, rid: DeviceId, j: nat)
    requires j < |links|
    ensures ConnectedDevices(links[j..], devs, rid) == PeerEntry(links[j], devs, rid) + ConnectedDevices(links[j + 1..], devs, rid)
  {
    assert links[j..][0] == links[j] && links[j..][1..] == links[j + 1..];
  }

  /** The route towards a connected device with an address and a mask. */
  function PeerRoute(router: Device, d: Device): seq<Route>
  {
    if Present(d.ip) && Truthy(d.subnetMask) then
      [Route(NetworkFromIP(d.ip, d.subnetMask), d.subnetMask, d.ip, InterfaceForDevice(router, d), Some(1), None)]
    else []
  }

  function PeerRoutes(router: Device, peers: seq<Device>): seq<Route>
    decreases |peers|
  {
    if peers == [] then [] else PeerRoute(router, peers[0]) + PeerRoutes(router, peers[1..])
  }

  /** The default route via the WAN gateway, when that is set and not `'0.0.0.0'`. */
  function DefaultRoute(router: Device): seq<Route>
  {
    var gw := router.interfaces.wan.gateway;
    if Truthy(gw) && gw != Zero then [Route(Zero, Zero, gw, Wan, Some(10), None)] else []
  }

  /** Every route `autoGenerateRoutesForRouter` proposes, in the order it tries them. */
  function Candidates(links: seq<Link>, devs: seq<Device>, router: Device): seq<Route>
  {
    LocalRoutes(router) + PeerRoutes(router, ConnectedDevices(links, devs, router.id)) + DefaultRoute(router)
  }

  /**
   * `autoGenerateRoutesForRouter(router)`: the routes it appends to the
   * router's table and returns.  On a device that is not a router the
   * source fails reading `interfaces` before it pushes anything, and the
   * error handler returns `[]`.
   */
  function AutoRoutes(links: seq<Link>, devs: seq<Device>, router: Device): (added: seq<Route>)
  {
    if router.kind != Router then [] else AppendMissing(router.routingTable, Candidates(links, devs, router))
  }

  /**
   * What `autoGenerateRoutesForRouter` promises: no added route has the
   * key of a route the table had, no two added routes share a key, and
   * afterwards every proposed route's key is in the table.
   */
  lemma AutoRoutesProperties(links: seq<Link>, devs: seq<Device>, router: Device)
    ensures var added := AutoRoutes(links, devs, router);
      (forall r :: r in added ==> !RouteExists(router.routingTable, r))
      && DistinctKeys(added)
      && (router.kind == Router ==>
            forall c :: c in Candidates(links, devs, router) ==> RouteExists(router.routingTable + added, c))
      && (router.kind != Router ==> added == [])
  {
    var cands := Candidates(links, devs, router);
    assert router.kind == Router ==> AutoRoutes(links, devs, router) == AppendMissing(router.routingTable, cands);
    AppendMissingFresh(router.routingTable, cands);
    AppendMissingDistinct(router.routingTable, cands);
    AppendMissingCovers(router.routingTable, cands);
  }

  /** The router with the generated routes appended to its table. */
  function WithRoutes(router: Device, added: seq<Route>): Device
  {
    router.(routingTable := router.routingTable + added)
  }

  /** The registry after `autoGenerateRoutesForRouter` on the registered device `rid`. */
  function AfterAutoRoutes(links: seq<Link>, devs: seq<Device>, rid: DeviceId): seq<Device>
    requires Registered(devs, rid)
  {
    var r := devs[IndexOf(devs, rid)];
    Replace(devs, WithRoutes(r, AutoRoutes(links, devs, r)))
  }

  /** Two devices that differ at most in their routing tables. */
  predicate SameButTable(d: Device, e: Device)
  {
    d.(routingTable := []) == e.(routingTable := [])
  }

  lemma FindByIdAfterTableChange(devs: seq<Device>, d: Device, x: DeviceId)
    requires Registered(devs, d.id) && SameButTable(devs[IndexOf(devs, d.id)], d)
    ensures FindById(Replace(devs, d), x).None? <==> FindById(devs, x).None?
    ensures FindById(devs, x).Some? ==> SameButTable(FindById(Replace(devs, d), x).value, FindById(devs, x).value)
  {
    var i := IndexOf(devs, d.id);
    var devs' := Replace(devs, d);
    assert forall k :: 0 <= k < |devs| ==> devs'[k].id == devs[k].id;
    if FindById(devs, x).Some? {
      var a :| 0 <= a < |devs| && devs[a] == FindById(devs, x).value && devs[a].id == x
               && forall j :: 0 <= j < a ==> devs[j].id != x;
      var b :| 0 <= b < |devs'| && devs'[b] == FindById(devs', x).value && devs'[b].id == x
               && forall j :: 0 <= j < b ==> devs'[j].id != x;
      assert a == b;
    }
  }

  lemma {:induction false} ConnectedDevicesAfterTableChange(links: seq<Link>, devs: seq<Device>, d: Device, rid: DeviceId)
    requires Registered(devs, d.id) && SameButTable(devs[IndexOf(devs, d.id)], d)
    ensures var p, q := ConnectedDevices(links, Replace(devs, d), rid), ConnectedDevices(links, devs, rid);
      |p| == |q| && forall k :: 0 <= k < |p| ==> SameButTable(p[k], q[k])
    decreases |links|
  {
    if links != [] {
      ConnectedDevicesAfterTableChange(links[1..], devs, d, rid);
      match PeerOf(links[0], rid) {
        case None =>
        case Some(o) => FindByIdAfterTableChange(devs, d, o);
      }
    }
  }

  lemma {:induction false} PeerRoutesIgnoreTables(r1: Device, r2: Device, p: seq<Device>, q: seq<Device>)
    requires SameButTable(r1, r2)
    requires |p| == |q| && forall k :: 0 <= k < |p| ==> SameButTable(p[k], q[k])
    ensures PeerRoutes(r1, p) == PeerRoutes(r2, q)
    decreases |p|
  {
    if p != [] {
      assert SameButTable(p[0], q[0]);
      assert p[0].ip == q[0].ip && p[0].subnetMask == q[0].subnetMask;
      assert r1.interfaces == r2.interfaces;
      PeerRoutesIgnoreTables(r1, r2, p[1..], q[1..]);
    }
  }

  /** What a router proposes does not depend on any routing table. */
  lemma CandidatesIgnoreTables(links: seq<Link>, devs: seq<Device>, d: Device)
    requires Registered(devs, d.id) && SameButTable(devs[IndexOf(devs, d.id)], d)
    ensures Candidates(links, Replace(devs, d), d) == Candidates(links, devs, devs[IndexOf(devs, d.id)])
  {
    var r := devs[IndexOf(devs, d.id)];
    ConnectedDevicesAfterTableChange(links, devs, d, d.id);
    PeerRoutesIgnoreTables(d, r, ConnectedDevices(links, Replace(devs, d), d.id), ConnectedDevices(links, devs, d.id));
    assert r.interfaces == d.interfaces && r.id == d.id;
  }

  /**
   * A second `autoGenerateRoutesForRouter` on an unchanged network adds
   * nothing: every route it proposes is already in the table.
   */
  lemma AutoRoutesIdempotent(links: seq<Link>, devs: seq<Device>, rid: DeviceId)
    requires Registered(devs, rid)
    ensures var devs' := AfterAutoRoutes(links, devs, rid);
      Registered(devs', rid) && AutoRoutes(links, devs', devs'[IndexOf(devs', rid)]) == []
  {
    var r := devs[IndexOf(devs, rid)];
    var added := AutoRoutes(links, devs, r);
    var r' := WithRoutes(r, added);
    var devs' := Replace(devs, r');
    assert devs'[IndexOf(devs, rid)] == r';
    assert Registered(devs', rid);
    assert devs'[IndexOf(devs', rid)] == r' by {
      assert forall k :: 0 <= k < |devs| ==> devs'[k].id == devs[k].id;
    }
    if r.kind == Router {
      CandidatesIgnoreTables(links, devs, r');
      var cands := Candidates(links, devs', r');
      assert cands == Candidates(links, devs, r);
      AppendMissingCovers(r.routingTable, cands);
      forall i | 0 <= i < |cands| ensures RouteExists(r'.routingTable, cands[i]) {
        assert cands[i] in Candidates(links, devs, r);
      }
      AppendMissingSaturated(r'.routingTable, cands);
    }
  }

  /**
   * No generated route carries `destination`, so the default-route test
   * of the router check never recognises one, the generated default route
   * included.
   */
  lemma GeneratedRoutesAreNeverDefaultEntries(links: seq<Link>, devs: seq<Device>, router: Device)
    ensures forall r :: r in AutoRoutes(links, devs, router) ==> !Reachability.IsDefaultRouteEntry(r)
  {
    var added := AutoRoutes(links, devs, router);
    if router.kind == Router {
      var cands := Candidates(links, devs, router);
      assert forall c :: c in PeerRoutes(router, ConnectedDevices(links, devs, router.id)) ==> c.destination.None? by {
        PeerRoutesHaveNoDestination(router, ConnectedDevices(links, devs, router.id));
      }
      assert forall c :: c in cands ==> c.destination.None?;
      AppendMissingFromCandidates(router.routingTable, cands);
    }
  }

  lemma {:induction false} PeerRoutesHaveNoDestination(router: Device, peers: seq<Device>)
    ensures forall c :: c in PeerRoutes(router, peers) ==> c.destination.None?
    decreases |peers|
  {
    if peers != [] {
      PeerRoutesHaveNoDestination(router, peers[1..]);
    }
  }

  /**
   * A router with an empty table and a WAN gateway gets the route
   * `0.0.0.0/0.0.0.0` through that gateway, yet its table still has no
   * entry the default-route test recognises.
   */
  lemma GeneratedDefaultRouteGoesUnseen(links: seq<Link>, devs: seq<Device>, router: Device)
    requires router.kind == Router && router.routingTable == []
    requires Truthy(router.interfaces.wan.gateway) && router.interfaces.wan.gateway != Zero
    ensures var t := WithRoutes(router, AutoRoutes(links, devs, router)).routingTable;
      (exists i :: 0 <= i < |t| && t[i].network == Zero && t[i].mask == Zero && t[i].gateway == router.interfaces.wan.gateway)
      && !Reachability.HasDefaultRoute(WithRoutes(router, AutoRoutes(links, devs, router)))
  {
    var added := AutoRoutes(links, devs, router);
    var dflt := Route(Zero, Zero, router.interfaces.wan.gateway, Wan, Some(10), None);
    var cands := Candidates(links, devs, router);
    assert dflt in cands by { assert cands[|cands| - 1] == dflt; }
    AppendMissingCovers([], cands);
    assert RouteExists([] + added, dflt);
    assert [] + added == added;
    GeneratedRoutesAreNeverDefaultEntries(links, devs, router);
    var t := WithRoutes(router, added).routingTable;
    assert t == added;
    assert forall i :: 0 <= i < |t| ==> !Reachability.IsDefaultRouteEntry(t[i]) by {
      forall i | 0 <= i < |t| ensures !Reachability.IsDefaultRouteEntry(t[i]) { assert t[i] in added; }
    }
  }

  // ---------------------------------------------------------------------
  // addSimpleRoutesForRouterConnection

  /**
   * The route the WAN-side router `r2` gets towards the LAN of `r1`:
   * `r1`'s LAN network and mask, through `r2`'s own WAN address.
   */
  function LanRouteVia(r1: Device, r2: Device): Route
  {
    Route(NetworkFromIP(r1.interfaces.lan.ip, r1.interfaces.lan.subnetMask), r1.interfaces.lan.subnetMask,
          r2.interfaces.wan.ip, Wan, None, None)
  }

  /**
   * With the route pushed, the WAN-side router has a route whose network
   * holds the other router's LAN address, as the router check asks.
   */
  lemma LanRouteReachesLan(r1: Device, r2: Device, table: seq<Route>)
    requires r1.interfaces.lan.ip.Quad? && r1.interfaces.lan.subnetMask != Unset
    ensures Reachability.HasRouteTo(r2.(routingTable := table + [LanRouteVia(r1, r2)]), r1.interfaces.lan.ip)
  {
    var t := table + [LanRouteVia(r1, r2)];
    assert t[|table|] == LanRouteVia(r1, r2);
  }
}
