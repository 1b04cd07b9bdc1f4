/**
 * The address choices `ConnectionManager` makes when a connection is
 * made: a WAN address for a router wired to another router
 * (`assignRouterWanIP`) or to a cloud (`assignRouterWanIPForCloud`), a
 * host address inside a router network (`generateIPInRange`), and the
 * addressing a device takes from the router interface it is wired to
 * (`updateDeviceIPForRouterInterface`).
 */
module Allocation {
  import opened Options
  import opened Addressing
  import opened Devices

  /** The WAN address every router falls back to, `192.168.1.6/24` via `192.168.1.1`. */
  const FallbackWan: Interface := Interface(Quad(192, 168, 1, 6), Mask24, Quad(192, 168, 1, 1), [])
  /** The host address handed out when there is no base address, `192.168.1.10`. */
  const FallbackHost: Addr := Quad(192, 168, 1, 10)

  /** A WAN interface with new address, mask and gateway; its DNS list is kept. */
  function SetWan(w: Interface, ip: Addr, mask: Addr, gateway: Addr): Interface
  {
    w.(ip := ip, subnetMask := mask, gateway := gateway)
  }

  /**
   * `assignRouterWanIP(router, otherRouter)`: a configured WAN address
   * stays; otherwise the first `<other LAN /24>.k`, k = 2..254, that no
   * device but this router owns, with the other's LAN mask (/24 when
   * missing) and the other's LAN address as gateway; otherwise the
   * fallback.  The result is the WAN interface afterwards.
   */
  function PeerWan(devs: seq<Device>, router: Device, other: Device): (w: Interface)
    ensures Configured(router.interfaces.wan.ip) ==> w == router.interfaces.wan
    ensures !Configured(router.interfaces.wan.ip) ==> w.dns == router.interfaces.wan.dns
    ensures !Configured(router.interfaces.wan.ip) && w.ip != FallbackWan.ip ==>
      var lan := other.interfaces.lan.ip;
      lan.Quad? && w.ip.Quad? && w.ip.a == lan.a && w.ip.b == lan.b && w.ip.c == lan.c && 2 <= w.ip.d <= 254
      && FreeFor(devs, w.ip, Some(router.id)) && w.gateway == lan && w.subnetMask == MaskOr24(other.interfaces.lan.subnetMask)
    ensures var lan := other.interfaces.lan.ip;
      !Configured(router.interfaces.wan.ip) && Configured(lan)
      && (exists k: Octet :: 2 <= k as nat < 255 && FreeFor(devs, Quad(lan.a, lan.b, lan.c, k), Some(router.id))) ==>
      w.ip.Quad? && w.ip.a == lan.a && w.ip.b == lan.b && w.ip.c == lan.c && 2 <= w.ip.d <= 254
      && FreeFor(devs, w.ip, Some(router.id))
      && (forall j: Octet :: 2 <= j as nat < w.ip.d as nat ==> !FreeFor(devs, Quad(lan.a, lan.b, lan.c, j), Some(router.id)))
      && w.gateway == lan && w.subnetMask == MaskOr24(other.interfaces.lan.subnetMask)
    ensures var lan := other.interfaces.lan.ip;
      !Configured(router.interfaces.wan.ip)
      && (!Configured(lan) || forall k: Octet :: 2 <= k as nat < 255 ==> !FreeFor(devs, Quad(lan.a, lan.b, lan.c, k), Some(router.id))) ==>
      w.ip == FallbackWan.ip && w.subnetMask == FallbackWan.subnetMask && w.gateway == FallbackWan.gateway
  {
    var wan := router.interfaces.wan;
    var lan := other.interfaces.lan;
    if Configured(wan.ip) then wan
    else if Configured(lan.ip) then
      match FirstFree(devs, lan.ip.a, lan.ip.b, lan.ip.c, 2, 255, Some(router.id))
      case Some(k) => SetWan(wan, Quad(lan.ip.a, lan.ip.b, lan.ip.c, k), MaskOr24(lan.subnetMask), lan.ip)
      case None => SetWan(wan, FallbackWan.ip, FallbackWan.subnetMask, FallbackWan.gateway)
    else SetWan(wan, FallbackWan.ip, FallbackWan.subnetMask, FallbackWan.gateway)
  }

  /** The fallback is taken only when the other LAN has no address or no free slot. */
  lemma PeerWanFallsBackOnlyWhenFull(devs: seq<Device>, router: Device, other: Device)
    requires !Configured(router.interfaces.wan.ip) && PeerWan(devs, router, other).ip == FallbackWan.ip
    requires Configured(other.interfaces.lan.ip)
    requires other.interfaces.lan.ip.a != 192 || other.interfaces.lan.ip.b != 168 || other.interfaces.lan.ip.c != 1
    ensures var lan := other.interfaces.lan.ip;
      forall k: Octet :: 2 <= k <= 254 ==> !FreeFor(devs, Quad(lan.a, lan.b, lan.c, k), Some(router.id))
  {
  }

  /**
   * `assignRouterWanIPForCloud(router, cloud)`: the first `<cloud /24>.k`,
   * k = 2..253, that no device but this router owns, mask /24, the cloud
   * as gateway; otherwise the fallback.
   */
  function CloudWan(devs: seq<Device>, router: Device, cloud: Device): (w: Interface)
    ensures w.dns == router.interfaces.wan.dns
    ensures w.ip != FallbackWan.ip ==>
      cloud.ip.Quad? && w.ip.Quad? && w.ip.a == cloud.ip.a && w.ip.b == cloud.ip.b && w.ip.c == cloud.ip.c
      && 2 <= w.ip.d <= 253 && FreeFor(devs, w.ip, Some(router.id)) && w.gateway == cloud.ip && w.subnetMask == Mask24
    ensures var c := cloud.ip;
      Configured(c) && (exists k: Octet :: 2 <= k as nat < 254 && FreeFor(devs, Quad(c.a, c.b, c.c, k), Some(router.id))) ==>
      w.ip.Quad? && w.ip.a == c.a && w.ip.b == c.b && w.ip.c == c.c && 2 <= w.ip.d <= 253
      && FreeFor(devs, w.ip, Some(router.id))
      && (forall j: Octet :: 2 <= j as nat < w.ip.d as nat ==> !FreeFor(devs, Quad(c.a, c.b, c.c, j), Some(router.id)))
      && w.gateway == c && w.subnetMask == Mask24
    ensures var c := cloud.ip;
      !Configured(c) || (forall k: Octet :: 2 <= k as nat < 254 ==> !FreeFor(devs, Quad(c.a, c.b, c.c, k), Some(router.id))) ==>
      w.ip == FallbackWan.ip && w.subnetMask == FallbackWan.subnetMask && w.gateway == FallbackWan.gateway
  {
    var wan := router.interfaces.wan;
    if Configured(cloud.ip) then
      match FirstFree(devs, cloud.ip.a, cloud.ip.b, cloud.ip.c, 2, 254, Some(router.id))
      case Some(k) => SetWan(wan, Quad(cloud.ip.a, cloud.ip.b, cloud.ip.c, k), Mask24, cloud.ip)
      case None => SetWan(wan, FallbackWan.ip, FallbackWan.subnetMask, FallbackWan.gateway)
    else SetWan(wan, FallbackWan.ip, FallbackWan.subnetMask, FallbackWan.gateway)
  }

  /**
   * `generateIPInRange(baseIP, startFrom)`: `192.168.1.10` without a base;
   * otherwise the first `<base /24>.k`, k = start..254, that no device
   * owns, or `<base /24>.start` when every one is taken.
   */
  function HostInRange(devs: seq<Device>, base: Addr, start: Octet): (ip: Addr)
    ensures !base.Quad? ==> ip == FallbackHost
    ensures base.Quad? ==> ip.Quad? && ip.a == base.a && ip.b == base.b && ip.c == base.c && start <= ip.d
    ensures base.Quad? && FindByIP(devs, ip).Some? ==>
      ip.d == start && forall k: Octet :: start <= k <= 254 ==> FindByIP(devs, Quad(base.a, base.b, base.c, k)).Some?
    ensures base.Quad? && (exists k: Octet :: start as nat <= k as nat < 255 && FindByIP(devs, Quad(base.a, base.b, base.c, k)).None?) ==>
      ip.d as nat < 255 && FindByIP(devs, ip).None?
      && forall j: Octet :: start as nat <= j as nat < ip.d as nat ==> FindByIP(devs, Quad(base.a, base.b, base.c, j)).Some?
    ensures base.Quad? && start <= 254 && FindByIP(devs, ip).None? ==>
      ip.d <= 254 && forall j: Octet :: start as nat <= j as nat < ip.d as nat ==> FindByIP(devs, Quad(base.a, base.b, base.c, j)).Some?
    ensures base.Quad? && (forall k: Octet :: start as nat <= k as nat < 255 ==> FindByIP(devs, Quad(base.a, base.b, base.c, k)).Some?) ==>
      ip == Quad(base.a, base.b, base.c, start)
  {
    if !base.Quad? then FallbackHost
    else
      match FirstFree(devs, base.a, base.b, base.c, start as nat, 255, None)
      case Some(k) => Quad(base.a, base.b, base.c, k)
      case None => Quad(base.a, base.b, base.c, start)
  }

  /** An address scanned from `start` on is free exactly when some address of the range is. */
  lemma HostInRangeFree(devs: seq<Device>, base: Addr, start: Octet)
    requires base.Quad? && start <= 254
    ensures FindByIP(devs, HostInRange(devs, base, start)).None? <==>
      exists k: Octet :: start <= k <= 254 && FindByIP(devs, Quad(base.a, base.b, base.c, k)).None?
  {
    var ip := HostInRange(devs, base, start);
    if FindByIP(devs, ip).None? {
      assert start <= ip.d <= 254;
      assert ip == Quad(base.a, base.b, base.c, ip.d);
    }
  }

  /** The addressing a device takes: address, gateway and mask. */
  datatype HostSetting = HostSetting(ip: Addr, gateway: Addr, subnetMask: Addr)

  /**
   * `updateDeviceIPForRouterInterface(device, router, interfaceType)`: a
   * device without a configured address takes one inside the network of
   * the router interface it is wired to, that interface as gateway (for
   * the WAN, the WAN's own gateway when set) and its mask; LAN2 only when
   * enabled, WAN only when its address is set.  `None` leaves the device
   * as it is.
   */
  function HostSettingFor(devs: seq<Device>, d: Device, router: Device, f: Iface): (r: Option<HostSetting>)
    ensures Configured(d.ip) ==> r.None?
    ensures !Configured(d.ip) && f == Lan ==>
      r == Some(HostSetting(HostInRange(devs, router.interfaces.lan.ip, 10),
                            router.interfaces.lan.ip, router.interfaces.lan.subnetMask))
    ensures r.Some? && f == Lan2 ==> router.interfaces.lan2Enabled && r.value.gateway == router.interfaces.lan2.ip
    ensures r.Some? && f == Wan ==> Present(router.interfaces.wan.ip)
    ensures !Configured(d.ip) && f == Lan2 ==>
      var lan2 := router.interfaces.lan2;
      r == (if router.interfaces.lan2Enabled then Some(HostSetting(HostInRange(devs, lan2.ip, 10), lan2.ip, lan2.subnetMask))
            else None)
    ensures !Configured(d.ip) && f == Wan ==>
      var wan := router.interfaces.wan;
      r == (if Present(wan.ip)
            then Some(HostSetting(HostInRange(devs, wan.ip, 10), if Truthy(wan.gateway) then wan.gateway else wan.ip, wan.subnetMask))
            else None)
  {
    if Configured(d.ip) then None
    else
      match f
      case Lan =>
        var lan := router.interfaces.lan;
        Some(HostSetting(HostInRange(devs, lan.ip, 10), lan.ip, lan.subnetMask))
      case Lan2 =>
        var lan2 := router.interfaces.lan2;
        if router.interfaces.lan2Enabled then Some(HostSetting(HostInRange(devs, lan2.ip, 10), lan2.ip, lan2.subnetMask))
        else None
      case Wan =>
        var wan := router.interfaces.wan;
        if Present(wan.ip) then
          Some(HostSetting(HostInRange(devs, wan.ip, 10), if Truthy(wan.gateway) then wan.gateway else wan.ip, wan.subnetMask))
        else None
  }

  /**
   * A device given an address behind a router LAN with a /24 mask lands on
   * that LAN's network, with the LAN address as its gateway.
   */
  lemma HostLandsOnLan(devs: seq<Device>, d: Device, router: Device)
    requires !Configured(d.ip) && router.interfaces.lan.ip.Quad? && router.interfaces.lan.subnetMask == Mask24
    ensures var s := HostSettingFor(devs, d, router, Lan).value;
      AreInSameNetwork(s.ip, router.interfaces.lan.ip, s.subnetMask, router.interfaces.lan.subnetMask)
      && s.gateway == router.interfaces.lan.ip
  {
    var s := HostSettingFor(devs, d, router, Lan).value;
    SameNetworkUnderMask24(s.ip, router.interfaces.lan.ip);
  }

  /** The device with the setting applied. */
  function Apply(d: Device, s: HostSetting): Device
  {
    d.(ip := s.ip, gateway := s.gateway, subnetMask := s.subnetMask)
  }
}
