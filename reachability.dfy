/**
 * The reachability decision of `ConnectionManager`:
 * `canDevicesCommunicateDirectly` and the checks it dispatches to.
 *
 * The source recurses from `checkGatewayCommunication` back into
 * `canDevicesCommunicateDirectly` with no visited set, and a cycle of
 * gateways makes it recurse without end.  The model counts the gateway
 * hops with `fuel`: `None` means the budget ran out before a verdict.
 */
module Reachability {
  import opened Options
  import opened Addressing
  import opened Devices
  import opened Topology
  import opened Paths

  /** `{ canCommunicate, viaGateway }` */
  datatype Comm = Comm(canCommunicate: bool, viaGateway: bool)

  const Blocked: Comm := Comm(false, false)
  const Reached: Comm := Comm(true, false)
  const ViaGateway: Comm := Comm(true, true)

  // ---------------------------------------------------------------------
  // Per-device addressing as the decision reads it

  /**
   * `getDeviceIP(device)`: a router answers with the address of the
   * interface its first connection binding names, or its LAN address when
   * it has none; any other device with `ip`.
   */
  function DeviceIP(d: Device): (r: Addr)
    ensures d.kind != Router ==> r == d.ip
    ensures d.kind == Router && d.connectionInterfaces == [] ==> r == d.interfaces.lan.ip
  {
    if d.kind == Router then
      if d.connectionInterfaces == [] then d.interfaces.lan.ip
      else
        match d.connectionInterfaces[0].iface
        case Lan => d.interfaces.lan.ip
        case Lan2 => d.interfaces.lan2.ip
        case Wan => d.interfaces.wan.ip
    else d.ip
  }

  /** `getDeviceSubnet(device)`: the first non-empty of the candidate masks, else /24. */
  function DeviceSubnet(d: Device): (r: Addr)
    ensures r != Unset
  {
    if d.kind == Router then
      if d.interfaces.lan.subnetMask != Unset then d.interfaces.lan.subnetMask
      else MaskOr24(d.interfaces.wan.subnetMask)
    else MaskOr24(d.subnetMask)
  }

  /** `getDeviceGateway(device)`: the WAN gateway of a router, `gateway` otherwise. */
  function DeviceGateway(d: Device): Addr
  {
    if d.kind == Router then d.interfaces.wan.gateway else d.gateway
  }

  /** `routerHasInternetAccess(router)` */
  predicate RouterHasInternetAccess(d: Device)
  {
    d.kind == Router && Configured(d.interfaces.wan.ip) && Configured(d.interfaces.wan.gateway)
  }

  /** The internet test inside `canCommunicateWithRouter`: `wan.ip !== 'N/A' && wan.gateway !== '0.0.0.0'`. */
  predicate WanLooksUp(d: Device)
  {
    d.interfaces.wan.ip != NA && d.interfaces.wan.gateway != Zero
  }

  /** `route.destination === '0.0.0.0/0' || route.destination === '0.0.0.0'` */
  predicate IsDefaultRouteEntry(r: Route)
  {
    r.destination == Some("0.0.0.0/0") || r.destination == Some("0.0.0.0")
  }

  predicate HasDefaultRoute(d: Device)
  {
    exists i :: 0 <= i < |d.routingTable| && IsDefaultRouteEntry(d.routingTable[i])
  }

  predicate HasRouteTo(d: Device, ip: Addr)
  {
    exists i :: 0 <= i < |d.routingTable| && IsIPInNetwork(ip, d.routingTable[i].network, d.routingTable[i].mask)
  }

  // ---------------------------------------------------------------------
  // Paths through switches

  /**
   * `areDevicesConnectedViaSwitch(d1, d2)`: the path the finder returns has
   * at least three devices and a switch strictly inside it.
   */
  predicate ViaSwitch(net: Net, d1: Device, d2: Device)
  {
    var p := FindPath(net, d1, d2);
    p.Some? && |p.value| >= 3 && exists i :: 1 <= i < |p.value| - 1 && p.value[i].kind == Switch
  }

  /** A switch path is never the direct shortcut: the two devices are distinct and not directly connected. */
  lemma ViaSwitchNeedsDistance(net: Net, d1: Device, d2: Device)
    requires ViaSwitch(net, d1, d2)
    ensures d1.id != d2.id && !Connected(net.links, d1.id, d2.id)
  {
  }

  // ---------------------------------------------------------------------
  // Routers

  /**
   * The loop over all routers in `canCommunicateWithRouter` for an external
   * peer: the first router directly connected to the peer decides when it
   * is this router (reached directly) or when the path finder reaches it
   * (reached through a gateway); a router it cannot reach is passed over.
   */
  function ExternalViaRouters(net: Net, router: Device, other: Device, routers: seq<Device>): (r: Option<Comm>)
    ensures r.Some? ==> r.value == Reached || r.value == ViaGateway
    ensures r.Some? ==> exists i :: 0 <= i < |routers| && Connected(net.links, routers[i].id, other.id)
    decreases |routers|
  {
    if routers == [] then None
    else
      var s := routers[0];
      if Connected(net.links, s.id, other.id) && s.id == router.id then Some(Reached)
      else if Connected(net.links, s.id, other.id) && FindPath(net, router, s).Some? then Some(ViaGateway)
      else
        var rest := ExternalViaRouters(net, router, other, routers[1..]);
        assert rest.Some? ==> exists i :: 0 <= i < |routers| && Connected(net.links, routers[i].id, other.id) by {
          if rest.Some? {
            var i :| 0 <= i < |routers[1..]| && Connected(net.links, routers[1..][i].id, other.id);
            assert routers[i + 1] == routers[1..][i];
          }
        }
        rest
  }

  function Routers(devs: seq<Device>): (r: seq<Device>)
    ensures forall d :: d in r <==> d in devs && d.kind == Router
    decreases |devs|
  {
    if devs == [] then []
    else (if devs[0].kind == Router then [devs[0]] else []) + Routers(devs[1..])
  }

  /** The external-peer branch of `canCommunicateWithRouter`. */
  function ExternalPeer(net: Net, router: Device, other: Device): Comm
  {
    match ExternalViaRouters(net, router, other, Routers(net.devices))
    case Some(c) => c
    case None =>
      if WanLooksUp(router) then ViaGateway
      else if |router.routingTable| > 0 && HasDefaultRoute(router) then ViaGateway
      else Blocked
  }

  /**
   * `canCommunicateWithRouter(router, other)`.  For a directly connected
   * cloud or router peer the source also works out the interfaces on both
   * sides, but every outcome of that comparison reports reachability, so
   * the model answers directly.
   */
  function WithRouter(net: Net, router: Device, other: Device): Comm
  {
    var otherIP := DeviceIP(other);
    var lanIP := router.interfaces.lan.ip;
    if other.kind == Switch && other.ip == NA then Reached
    else if Connected(net.links, router.id, other.id) && (other.kind == Cloud || other.kind == Router) then Reached
    else if !Configured(lanIP) then Blocked
    else if Configured(otherIP)
            && AreInSameNetwork(otherIP, lanIP, DeviceSubnet(other), router.interfaces.lan.subnetMask) then Reached
    else if Configured(otherIP) && IsExternalIP(otherIP) then ExternalPeer(net, router, other)
    else
      var gw := DeviceGateway(other);
      if Configured(gw) && gw == lanIP then
        if |router.routingTable| > 0 then (if HasRouteTo(router, otherIP) then ViaGateway else Comm(false, true))
        else ViaGateway
      else if (other.kind == Cloud || other.kind == Router) && Configured(router.interfaces.wan.ip)
              && Truthy(otherIP)
              && AreInSameNetwork(otherIP, router.interfaces.wan.ip, DeviceSubnet(other), router.interfaces.wan.subnetMask)
      then Reached
      else Blocked
  }

  // ---------------------------------------------------------------------
  // The mutually recursive decision

  /**
   * The gateway each device would hand a decision on to.  The decision is
   * written over any such choice; `Decide` supplies `UsableGateway`.
   */
  type GatewayOf = Device -> Option<Device>

  /** `canDevicesCommunicateDirectly(d1, d2)` within `fuel` gateway hops. */
  function Communicate(net: Net, gw: GatewayOf, fuel: nat, d1: Device, d2: Device): Option<Comm>
    decreases fuel, 2
  {
    if d1.id == d2.id then Some(Reached)
    else if ViaSwitch(net, d1, d2) then
      if d1.kind == Switch && d2.kind == Switch then Some(Reached)
      else if (d1.kind == Switch && d1.ip == NA) || (d2.kind == Switch && d2.ip == NA) then Some(Reached)
      else SameNetworkOrGateway(net, gw, fuel, d1, d2)
    else if !Connected(net.links, d1.id, d2.id) then Some(Blocked)
    else if IsExternalIP(DeviceIP(d2)) && d1.kind != Router then Some(Blocked)
    else if IsExternalIP(DeviceIP(d1)) && d2.kind != Router then Some(Blocked)
    else if d1.kind == Router then Some(WithRouter(net, d1, d2))
    else if d2.kind == Router then Some(WithRouter(net, d2, d1))
    else SameNetworkOrGateway(net, gw, fuel, d1, d2)
  }

  /**
   * `checkCommunicationThroughSwitch(d1, d2)` and
   * `canStandardDevicesCommunicate(d1, d2)`, which test the same things in
   * the same order: both addresses set, then the same network, then at
   * least one gateway.
   */
  function SameNetworkOrGateway(net: Net, gw: GatewayOf, fuel: nat, d1: Device, d2: Device): Option<Comm>
    decreases fuel, 1
  {
    var ip1 := DeviceIP(d1);
    var ip2 := DeviceIP(d2);
    if !Configured(ip1) || !Configured(ip2) then Some(Blocked)
    else if AreInSameNetwork(ip1, ip2, DeviceSubnet(d1), DeviceSubnet(d2)) then Some(Reached)
    else if !Configured(DeviceGateway(d1)) && !Configured(DeviceGateway(d2)) then Some(Blocked)
    else GatewayComm(net, gw, fuel, d1, d2)
  }

  /**
   * The gateway device of `d` when `d`'s gateway is set, is a registered
   * address, and `d` reaches it directly or through a switch.
   */
  function UsableGateway(net: Net, d: Device): (r: Option<Device>)
    ensures r.Some? ==> Configured(DeviceGateway(d)) && r == FindByIP(net.devices, DeviceGateway(d))
    ensures r.Some? ==> Connected(net.links, d.id, r.value.id) || ViaSwitch(net, d, r.value)
  {
    var gw := DeviceGateway(d);
    if !Configured(gw) then None
    else
      match FindByIP(net.devices, gw)
      case None => None
      case Some(g) =>
        if Connected(net.links, d.id, g.id) || ViaSwitch(net, d, g) then Some(g) else None
  }

  /**
   * `checkGatewayCommunication(d1, d2)`: first `d1`'s gateway towards `d2`,
   * then `d2`'s gateway towards `d1`; the pair of attempts spends one unit
   * of fuel.
   */
  function GatewayComm(net: Net, gw: GatewayOf, fuel: nat, d1: Device, d2: Device): Option<Comm>
    decreases fuel, 0
  {
    if fuel == 0 then None
    else Attempts(net, gw, fuel - 1, d1, d2, gw(d1), gw(d2))
  }

  /** The two gateway attempts, given the gateways of both devices. */
  function Attempts(net: Net, gw: GatewayOf, fuel: nat, d1: Device, d2: Device, g1: Option<Device>, g2: Option<Device>): Option<Comm>
    decreases fuel, 3
  {
    var first := if g1.Some? then Communicate(net, gw, fuel, g1.value, d2) else Some(Blocked);
    if first.None? then None
    else if first.value.canCommunicate then Some(ViaGateway)
    else
      var second := if g2.Some? then Communicate(net, gw, fuel, d1, g2.value) else Some(Blocked);
      if second.None? then None
      else if second.value.canCommunicate then Some(ViaGateway)
      else Some(Blocked)
  }

  /** The number of gateway hops the model allows a single decision. */
  function Budget(net: Net): nat
  {
    (|net.devices| + 2) * (|net.devices| + 2)
  }

  /** `canDevicesCommunicateDirectly` within the budget, over the usable gateways. */
  function Decide(net: Net, d1: Device, d2: Device): Option<Comm>
  {
    Communicate(net, d => UsableGateway(net, d), Budget(net), d1, d2)
  }

  // ---------------------------------------------------------------------
  // More fuel never changes a verdict

  lemma {:induction false} CommunicateMonotone(net: Net, gw: GatewayOf, f: nat, g: nat, d1: Device, d2: Device)
    requires f <= g && Communicate(net, gw, f, d1, d2).Some?
    ensures Communicate(net, gw, g, d1, d2) == Communicate(net, gw, f, d1, d2)
    decreases f, 2
  {
    if d1.id != d2.id {
      if ViaSwitch(net, d1, d2) {
        if !(d1.kind == Switch && d2.kind == Switch) && !((d1.kind == Switch && d1.ip == NA) || (d2.kind == Switch && d2.ip == NA)) {
          SameNetworkMonotone(net, gw, f, g, d1, d2);
        }
      } else if Connected(net.links, d1.id, d2.id) && !(IsExternalIP(DeviceIP(d2)) && d1.kind != Router)
                && !(IsExternalIP(DeviceIP(d1)) && d2.kind != Router) && d1.kind != Router && d2.kind != Router {
        SameNetworkMonotone(net, gw, f, g, d1, d2);
      }
    }
  }

  lemma {:induction false} SameNetworkMonotone(net: Net, gw: GatewayOf, f: nat, g: nat, d1: Device, d2: Device)
    requires f <= g && SameNetworkOrGateway(net, gw, f, d1, d2).Some?
    ensures SameNetworkOrGateway(net, gw, g, d1, d2) == SameNetworkOrGateway(net, gw, f, d1, d2)
    decreases f, 1
  {
    var ip1 := DeviceIP(d1);
    var ip2 := DeviceIP(d2);
    if Configured(ip1) && Configured(ip2) && !AreInSameNetwork(ip1, ip2, DeviceSubnet(d1), DeviceSubnet(d2))
       && !(!Configured(DeviceGateway(d1)) && !Configured(DeviceGateway(d2))) {
      GatewayMonotone(net, gw, f, g, d1, d2);
    }
  }

  lemma {:induction false} GatewayMonotone(net: Net, gw: GatewayOf, f: nat, g: nat, d1: Device, d2: Device)
    requires f <= g && GatewayComm(net, gw, f, d1, d2).Some?
    ensures GatewayComm(net, gw, g, d1, d2) == GatewayComm(net, gw, f, d1, d2)
    decreases f, 0
  {
    AttemptsMonotone(net, gw, f - 1, g - 1, d1, d2, gw(d1), gw(d2));
  }

  lemma {:induction false} AttemptsMonotone(net: Net, gw: GatewayOf, f: nat, g: nat, d1: Device, d2: Device,
                                            g1: Option<Device>, g2: Option<Device>)
    requires f <= g && Attempts(net, gw, f, d1, d2, g1, g2).Some?
    ensures Attempts(net, gw, g, d1, d2, g1, g2) == Attempts(net, gw, f, d1, d2, g1, g2)
    decreases f, 3
  {
    if g1.Some? {
      CommunicateMonotone(net, gw, f, g, g1.value, d2);
    }
    var first := if g1.Some? then Communicate(net, gw, f, g1.value, d2) else Some(Blocked);
    if !first.value.canCommunicate && g2.Some? {
      CommunicateMonotone(net, gw, f, g, d1, g2.value);
    }
  }

  /** A verdict reached within some budget is the verdict of every larger budget. */
  lemma DecideSettled(net: Net, f: nat, d1: Device, d2: Device)
    requires f <= Budget(net) && Communicate(net, d => UsableGateway(net, d), f, d1, d2).Some?
    ensures Decide(net, d1, d2) == Communicate(net, d => UsableGateway(net, d), f, d1, d2)
  {
    CommunicateMonotone(net, d => UsableGateway(net, d), f, Budget(net), d1, d2);
  }

  // ---------------------------------------------------------------------
  // Gateway cycles

  /**
   * Two plain devices joined through a switch, on different networks, the
   * first with a gateway set: the decision is left to `checkGatewayCommunication`.
   */
  predicate DefersToGateway(net: Net, a: Device, b: Device)
  {
    a.id != b.id && PlainDevice(a) && PlainDevice(b) && ViaSwitch(net, a, b)
    && Configured(a.ip) && Configured(b.ip) && !AreInSameNetwork(a.ip, b.ip, DeviceSubnet(a), DeviceSubnet(b))
    && Configured(a.gateway)
  }

  lemma DefersToGatewayUnfolds(net: Net, gw: GatewayOf, fuel: nat, a: Device, b: Device)
    requires DefersToGateway(net, a, b)
    ensures Communicate(net, gw, fuel, a, b) == GatewayComm(net, gw, fuel, a, b)
  {
  }

  /**
   * Two devices that use each other as gateway towards a third: the
   * source's recursion never returns, and no budget settles the model's
   * decision.
   */
  lemma {:induction false} GatewayCycleDiverges(net: Net, gw: GatewayOf, fuel: nat, a: Device, c: Device, b: Device)
    requires DefersToGateway(net, a, b) && DefersToGateway(net, c, b)
    requires gw(a) == Some(c) && gw(c) == Some(a)
    ensures Communicate(net, gw, fuel, a, b).None? && Communicate(net, gw, fuel, c, b).None?
  {
    DefersToGatewayUnfolds(net, gw, fuel, a, b);
    DefersToGatewayUnfolds(net, gw, fuel, c, b);
    if fuel > 0 {
      GatewayCycleDiverges(net, gw, fuel - 1, a, c, b);
    }
  }

  /**
   * Three hosts on one switch, on three networks, where the first and the
   * second name each other as gateway, are such a cycle: the decision
   * between the first and the third has no verdict.
   */
  lemma GatewayCycleUndecided(net: Net, a: Device, c: Device, b: Device)
    requires DefersToGateway(net, a, b) && DefersToGateway(net, c, b)
    requires UsableGateway(net, a) == Some(c) && UsableGateway(net, c) == Some(a)
    ensures Decide(net, a, b).None?
  {
    GatewayCycleDiverges(net, d => UsableGateway(net, d), Budget(net), a, c, b);
  }

  // ---------------------------------------------------------------------
  // Properties of the decision

  /** A device reaches itself, without a gateway, whatever the budget. */
  lemma SameDevice(net: Net, gw: GatewayOf, fuel: nat, d: Device)
    ensures Communicate(net, gw, fuel, d, d) == Some(Comm(true, false))
  {
  }

  /**
   * Without a switch path the decision needs a direct connection: distinct
   * devices that are neither connected nor joined through a switch are
   * blocked, whatever the budget.
   */
  lemma UnlinkedIsBlocked(net: Net, gw: GatewayOf, fuel: nat, d1: Device, d2: Device)
    requires d1.id != d2.id && !ViaSwitch(net, d1, d2) && !Connected(net.links, d1.id, d2.id)
    ensures Communicate(net, gw, fuel, d1, d2) == Some(Comm(false, false))
  {
  }

  /** A directly connected non-router cannot reach an external address unless a switch lies between. */
  lemma ExternalNeedsRouter(net: Net, gw: GatewayOf, fuel: nat, d1: Device, d2: Device)
    requires d1.id != d2.id && !ViaSwitch(net, d1, d2)
    requires (IsExternalIP(DeviceIP(d2)) && d1.kind != Router) || (IsExternalIP(DeviceIP(d1)) && d2.kind != Router)
    ensures Communicate(net, gw, fuel, d1, d2) == Some(Comm(false, false))
  {
  }

  predicate PlainDevice(d: Device) { d.kind != Router && d.kind != Switch }

  /**
   * Two plain devices on different networks, neither of which has a
   * gateway set, are blocked however they are wired.
   */
  lemma DifferentNetworksWithoutGateway(net: Net, gw: GatewayOf, fuel: nat, d1: Device, d2: Device)
    requires d1.id != d2.id && PlainDevice(d1) && PlainDevice(d2)
    requires !AreInSameNetwork(d1.ip, d2.ip, DeviceSubnet(d1), DeviceSubnet(d2))
    requires !Configured(d1.gateway) && !Configured(d2.gateway)
    ensures Communicate(net, gw, fuel, d1, d2) == Some(Comm(false, false))
  {
  }

  /** A router reaches a cloud or router wired to it, whatever the interface networks. */
  lemma RouterReachesWiredPeer(net: Net, router: Device, other: Device)
    requires Connected(net.links, router.id, other.id) && (other.kind == Cloud || other.kind == Router)
    ensures WithRouter(net, router, other) == Comm(true, false)
  {
  }

  /**
   * A host behind the router, off the LAN network and not external, whose
   * gateway is the router's LAN address: with a non-empty routing table the
   * verdict is reachability exactly when some route's network holds the
   * host's address, and the answer is via the gateway either way.
   */
  lemma RoutedHost(net: Net, router: Device, other: Device)
    requires PlainDevice(other) && other.kind != Cloud
    requires Configured(router.interfaces.lan.ip) && other.gateway == router.interfaces.lan.ip
    requires !(Configured(other.ip)
               && AreInSameNetwork(other.ip, router.interfaces.lan.ip, DeviceSubnet(other), router.interfaces.lan.subnetMask))
    requires !(Configured(other.ip) && IsExternalIP(other.ip))
    requires |router.routingTable| > 0
    ensures WithRouter(net, router, other).viaGateway
    ensures WithRouter(net, router, other).canCommunicate <==>
      exists i :: 0 <= i < |router.routingTable|
                  && IsIPInNetwork(other.ip, router.routingTable[i].network, router.routingTable[i].mask)
  {
  }

  /** The internet test the router check applies is implied by `routerHasInternetAccess`. */
  lemma InternetAccessImpliesWanLooksUp(d: Device)
    requires RouterHasInternetAccess(d)
    ensures WanLooksUp(d)
  {
  }

  /** ... but not conversely: a router with no WAN address at all passes it. */
  lemma WanLooksUpIsWeaker()
    ensures var r := Blank(1, Router, "Router 1").(interfaces := RouterDefaults.(wan := NoInterface));
      WanLooksUp(r) && !RouterHasInternetAccess(r)
  {
  }

  // ---------------------------------------------------------------------
  // canDevicesCommunicateWithPath and shouldUseGateway

  datatype PathComm = PathComm(canCommunicate: bool, viaGateway: bool, path: Option<seq<Device>>)

  /**
   * `canDevicesCommunicateWithPath(d1, d2)`: a path of at least two
   * devices and a positive decision; `None` when the budget ran out.
   */
  function CommunicateWithPath(net: Net, d1: Device, d2: Device): (r: Option<PathComm>)
    ensures FindPath(net, d1, d2).None? || |FindPath(net, d1, d2).value| < 2 ==> r == Some(PathComm(false, false, None))
    ensures FindPath(net, d1, d2).Some? && |FindPath(net, d1, d2).value| >= 2 ==>
      (r.None? <==> Decide(net, d1, d2).None?)
    ensures r.Some? && r.value.canCommunicate ==>
      FindPath(net, d1, d2).Some? && |FindPath(net, d1, d2).value| >= 2 && r.value.path == FindPath(net, d1, d2)
      && Decide(net, d1, d2) == Some(Comm(true, r.value.viaGateway))
    ensures r.Some? && !r.value.canCommunicate ==> r.value == PathComm(false, false, None)
  {
    var p := FindPath(net, d1, d2);
    if p.None? || |p.value| < 2 then Some(PathComm(false, false, None))
    else
      match Decide(net, d1, d2)
      case None => None
      case Some(c) => if c.canCommunicate then Some(PathComm(true, c.viaGateway, p)) else Some(PathComm(false, false, None))
  }

  /** The one-device path `[d]` is too short: a device never communicates with itself by path. */
  lemma NoPathToItself(net: Net, d: Device)
    ensures CommunicateWithPath(net, d, d) == Some(PathComm(false, false, None))
  {
  }

  /**
   * `shouldUseGateway(source, destIP, destMask)`: false without a source
   * address, otherwise exactly when the destination lies on another network.
   * The mask defaults to /24 in the source; callers here pass it explicitly.
   */
  function ShouldUseGateway(d: Device, destIP: Addr, destMask: Addr): (r: bool)
    ensures r ==> DeviceIP(d) != Unset && DeviceIP(d) != NA
    ensures var ip := DeviceIP(d);
      ip.Quad? && destIP.Quad? && DeviceSubnet(d) == Mask24 && destMask == Mask24 ==>
      (r <==> ip.a != destIP.a || ip.b != destIP.b || ip.c != destIP.c)
  {
    var ip := DeviceIP(d);
    if !Truthy(ip) || ip == NA then false
    else if ip.Quad? && destIP.Quad? then
      SameNetworkUnderMask24(ip, destIP);
      !AreInSameNetwork(ip, destIP, DeviceSubnet(d), destMask)
    else !AreInSameNetwork(ip, destIP, DeviceSubnet(d), destMask)
  }
}
