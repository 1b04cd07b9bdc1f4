/**
 * The device registry of `DeviceManager`: device records with their fixed
 * factory defaults, the first-match lookups `getDeviceById`,
 * `getDeviceByIP`, `getDeviceByDomain`, `findDNSServer`, the free-address
 * scans shared by the address allocators, and the registry itself as a
 * class whose methods add, remove and reconfigure devices.
 */
module Devices {
  import opened Options
  import opened Addressing
  import opened IpText

  /** `'device-<n>'` is modelled by its counter value `n`. */
  type DeviceId = nat
  /** Connection ids, drawn from a fresh-id supply. */
  type ConnId = nat

  datatype Kind = Router | Switch | Cloud | DnsServer | Host(typeName: string)

  /** Router interface names, `'wan' | 'lan' | 'lan2'`. */
  datatype Iface = Wan | Lan | Lan2

  datatype Interface = Interface(ip: Addr, subnetMask: Addr, gateway: Addr, dns: seq<Addr>)

  /**
   * The `interfaces` record of a router.  `lan1` is an older alias of `lan`
   * that the factory no longer creates but the lookups and updates still
   * honour; `lan2Enabled` is `interfaces.lan2.enabled`.
   */
  datatype RouterInterfaces = RouterInterfaces(
    wan: Interface, lan: Interface, lan1: Option<Interface>, lan2: Interface, lan2Enabled: bool)

  /** One entry `connId -> interface` of a router's `connectionInterfaces`, kept in insertion order. */
  datatype Binding = Binding(conn: ConnId, iface: Iface)

  /**
   * A routing-table entry.  `destination` is a field the default-route test
   * reads; no code of the simulator ever writes it.
   */
  datatype Route = Route(network: Addr, mask: Addr, gateway: Addr, iface: Iface,
                         metric: Option<nat>, destination: Option<string>)

  /**
   * A device.  Routers keep their addresses in `interfaces` and leave the
   * top-level `ip`, `subnetMask`, `gateway` unset and `dns` empty; the other
   * kinds carry `NoInterfaces`.  `dnsCache` is absent except on standard
   * devices until a resolution fills it.
   */
  datatype Device = Device(
    id: DeviceId, kind: Kind, name: string,
    ip: Addr, subnetMask: Addr, gateway: Addr, dns: seq<Addr>,
    interfaces: RouterInterfaces,
    connections: seq<ConnId>,
    connectionInterfaces: seq<Binding>,
    routingTable: seq<Route>,
    domainName: Option<string>,
    dnsCache: Option<map<string, Addr>>,
    dnsRecords: map<string, Addr>)

  const NoInterface: Interface := Interface(Unset, Unset, Unset, [])
  const NoInterfaces: RouterInterfaces := RouterInterfaces(NoInterface, NoInterface, None, NoInterface, false)

  // ---------------------------------------------------------------------
  // Factories (fixed defaults of createRouterDevice, createSwitchDevice, ...)

  const RouterDefaults: RouterInterfaces := RouterInterfaces(
    Interface(NA, Mask24, Zero, [Quad(8, 8, 8, 8)]),
    Interface(Quad(192, 168, 1, 1), Mask24, Zero, [Quad(192, 168, 1, 1)]),
    None,
    Interface(Quad(192, 168, 2, 1), Mask24, Zero, [Quad(192, 168, 2, 1)]),
    true)

  function Blank(id: DeviceId, kind: Kind, name: string): Device
  {
    Device(id, kind, name, Unset, Unset, Unset, [], NoInterfaces, [], [], [], None, None, map[])
  }

  /**
   * `createDeviceObject`: the defaults per kind.  `randomIp` is the address
   * a standard device draws at random (inside the first router's LAN when
   * that LAN is configured, otherwise some 192.168.x.y).
   */
  function NewDevice(devs: seq<Device>, id: DeviceId, kind: Kind, name: string, randomIp: Addr): (d: Device)
    ensures d.id == id && d.kind == kind && d.name == name
    ensures d.connections == [] && d.connectionInterfaces == [] && d.routingTable == []
    ensures kind == Router <==> d.interfaces == RouterDefaults
  {
    match kind
    case Router => Blank(id, kind, name).(interfaces := RouterDefaults)
    case Switch => Blank(id, kind, name).(ip := NA, subnetMask := Mask24, gateway := Zero)
    case Cloud =>
      Blank(id, kind, name).(ip := Quad(8, 8, 8, 8), subnetMask := Mask24, gateway := Zero, dns := [Quad(8, 8, 8, 8)])
    case DnsServer =>
      Blank(id, kind, name).(ip := Quad(192, 168, 1, 53), subnetMask := Mask24,
                             gateway := Quad(192, 168, 1, 1), dns := [Quad(192, 168, 1, 53)])
    case Host(_) =>
      var router := FirstRouter(devs);
      if router.Some? && router.value.interfaces.lan.ip != NA then
        var lanIp := router.value.interfaces.lan.ip;
        Blank(id, kind, name).(ip := randomIp, subnetMask := Mask24, gateway := lanIp, dns := [lanIp],
                               dnsCache := Some(map[]))
      else
        Blank(id, kind, name).(ip := randomIp, subnetMask := Mask24, gateway := Zero, dns := [Quad(8, 8, 8, 8)],
                               dnsCache := Some(map[]))
  }

  // ---------------------------------------------------------------------
  // First-match lookups

  /** The index of the first element satisfying `p`, as `Array.prototype.findIndex`. */
  function FirstWhere<T>(s: seq<T>, p: T -> bool): (r: Option<nat>)
    ensures r.None? <==> forall i :: 0 <= i < |s| ==> !p(s[i])
    ensures r.Some? ==> r.value < |s| && p(s[r.value]) && forall j :: 0 <= j < r.value ==> !p(s[j])
  {
    if s == [] then None
    else if p(s[0]) then Some(0)
    else
      match FirstWhere(s[1..], p)
      case None => None
      case Some(k) => Some(k + 1)
  }

  predicate HasId(d: Device, id: DeviceId) { d.id == id }

  /** `getDeviceById(id)`: the first device with that id. */
  function FindById(devs: seq<Device>, id: DeviceId): (r: Option<Device>)
    ensures r.None? <==> forall i :: 0 <= i < |devs| ==> devs[i].id != id
    ensures r.Some? ==> exists i :: 0 <= i < |devs| && devs[i] == r.value && r.value.id == id
                                    && forall j :: 0 <= j < i ==> devs[j].id != id
  {
    match FirstWhere(devs, d => HasId(d, id))
    case None => None
    case Some(i) => Some(devs[i])
  }

  predicate IsRouter(d: Device) { d.kind == Router }

  function FirstRouter(devs: seq<Device>): (r: Option<Device>)
    ensures r.None? <==> forall i :: 0 <= i < |devs| ==> devs[i].kind != Router
    ensures r.Some? ==> exists i :: 0 <= i < |devs| && devs[i] == r.value && r.value.kind == Router
                                    && forall j :: 0 <= j < i ==> devs[j].kind != Router
  {
    match FirstWhere(devs, IsRouter)
    case None => None
    case Some(i) => Some(devs[i])
  }

  /**
   * The addresses a device answers to: a router on its wan, lan, lan1 (when
   * present) and lan2 interfaces, any other device on `ip`.
   */
  predicate OwnsAddr(d: Device, ip: Addr)
  {
    if d.kind == Router then
      d.interfaces.wan.ip == ip || d.interfaces.lan.ip == ip
      || (d.interfaces.lan1.Some? && d.interfaces.lan1.value.ip == ip)
      || d.interfaces.lan2.ip == ip
    else d.ip == ip
  }

  /** The guard of `getDeviceByIP`: neither empty, `'N/A'` nor `'0.0.0.0'`. */
  predicate Searchable(ip: Addr) { ip != Unset && ip != NA && ip != Zero }

  /**
   * `getDeviceByIP(ip)`: `null` for an empty, `'N/A'` or `'0.0.0.0'`
   * address, otherwise the first device in registry order owning it.
   */
  function FindByIP(devs: seq<Device>, ip: Addr): (r: Option<Device>)
    ensures !Searchable(ip) ==> r.None?
    ensures Searchable(ip) ==> (r.None? <==> forall i :: 0 <= i < |devs| ==> !OwnsAddr(devs[i], ip))
    ensures r.Some? ==> Searchable(ip)
    ensures r.Some? ==>
      exists i :: 0 <= i < |devs| && devs[i] == r.value && OwnsAddr(r.value, ip)
                  && forall j :: 0 <= j < i ==> !OwnsAddr(devs[j], ip)
  {
    if !Searchable(ip) then None
    else
      match FirstWhere(devs, d => OwnsAddr(d, ip))
      case None => None
      case Some(i) => Some(devs[i])
  }

  /** A truthy entry of a JavaScript object used as a record map. */
  predicate Recorded(records: map<string, Addr>, domain: string)
  {
    domain in records && Truthy(records[domain])
  }

  predicate NamedAs(d: Device, domain: string) { d.domainName == Some(domain) }

  /**
   * `getDeviceByDomain(domain, records)`: a truthy global record decides
   * alone, by address; only without one is a device whose `domainName`
   * equals the domain looked for.
   */
  function FindByDomain(devs: seq<Device>, domain: string, records: map<string, Addr>): (r: Option<Device>)
    ensures Recorded(records, domain) ==> r == FindByIP(devs, records[domain])
    ensures !Recorded(records, domain) ==>
      (r.None? <==> forall i :: 0 <= i < |devs| ==> devs[i].domainName != Some(domain))
    ensures !Recorded(records, domain) && r.Some? ==>
      exists i :: 0 <= i < |devs| && devs[i] == r.value && r.value.domainName == Some(domain)
                  && forall j :: 0 <= j < i ==> devs[j].domainName != Some(domain)
  {
    if Recorded(records, domain) then FindByIP(devs, records[domain])
    else
      match FirstWhere(devs, d => NamedAs(d, domain))
      case None => None
      case Some(i) => Some(devs[i])
  }

  predicate IsDnsServer(d: Device) { d.kind == DnsServer }

  /**
   * `findDNSServer()`: the first DNS-server device; failing that, the device
   * that owns the first DNS address of the first router's LAN.
   */
  function FindDNSServer(devs: seq<Device>): (r: Option<Device>)
    ensures (exists i :: 0 <= i < |devs| && IsDnsServer(devs[i])) ==>
      r.Some? && exists i :: 0 <= i < |devs| && devs[i] == r.value && IsDnsServer(r.value)
                             && forall j :: 0 <= j < i ==> !IsDnsServer(devs[j])
    ensures (forall i :: 0 <= i < |devs| ==> !IsDnsServer(devs[i])) && r.Some? ==>
      var router := FirstRouter(devs);
      router.Some? && |router.value.interfaces.lan.dns| > 0
      && var dns := router.value.interfaces.lan.dns[0];
         Searchable(dns) && OwnsAddr(r.value, dns)
         && exists i :: 0 <= i < |devs| && devs[i] == r.value && forall j :: 0 <= j < i ==> !OwnsAddr(devs[j], dns)
    ensures (forall i :: 0 <= i < |devs| ==> !IsDnsServer(devs[i])) && r.None? ==>
      var router := FirstRouter(devs);
      router.None? || |router.value.interfaces.lan.dns| == 0
      || var dns := router.value.interfaces.lan.dns[0];
         !Searchable(dns) || forall i :: 0 <= i < |devs| ==> !OwnsAddr(devs[i], dns)
  {
    match FirstWhere(devs, IsDnsServer)
    case Some(i) => Some(devs[i])
    case None =>
      var router := FirstRouter(devs);
      if router.Some? && |router.value.interfaces.lan.dns| > 0
      then FindByIP(devs, router.value.interfaces.lan.dns[0]) else None
  }

  // ---------------------------------------------------------------------
  // Scans for a free host address `<a>.<b>.<c>.k`

  /**
   * A candidate address is free when no device owns it, or when the first
   * owner is the device being configured itself (`self`).
   */
  predicate FreeFor(devs: seq<Device>, ip: Addr, self: Option<DeviceId>)
  {
    var owner := FindByIP(devs, ip);
    owner.None? || (self.Some? && owner.value.id == self.value)
  }

  /** The first `k` in `lo..hi-1` whose address `<a>.<b>.<c>.k` is free. */
  function FirstFree(devs: seq<Device>, a: Octet, b: Octet, c: Octet, lo: nat, hi: nat, self: Option<DeviceId>): (r: Option<Octet>)
    requires hi <= 256
    ensures r.Some? ==> lo <= r.value as nat < hi && FreeFor(devs, Quad(a, b, c, r.value), self)
    ensures r.Some? ==> forall k: Octet :: lo <= k as nat < r.value as nat ==> !FreeFor(devs, Quad(a, b, c, k), self)
    ensures r.None? ==> forall k: Octet :: lo <= k as nat < hi ==> !FreeFor(devs, Quad(a, b, c, k), self)
    decreases hi - lo
  {
    if lo >= hi then None
    else if FreeFor(devs, Quad(a, b, c, lo as Octet), self) then Some(lo as Octet)
    else FirstFree(devs, a, b, c, lo + 1, hi, self)
  }

  /** The index of the device with the given id in a registry with unique ids. */
  function IndexOf(devs: seq<Device>, id: DeviceId): (i: nat)
    requires exists k :: 0 <= k < |devs| && devs[k].id == id
    ensures i < |devs| && devs[i].id == id
  {
    FirstWhere(devs, d => HasId(d, id)).value
  }

  predicate UniqueIds(devs: seq<Device>)
  {
    forall i, j :: 0 <= i < j < |devs| ==> devs[i].id != devs[j].id
  }

  predicate Registered(devs: seq<Device>, id: DeviceId)
  {
    exists k :: 0 <= k < |devs| && devs[k].id == id
  }

  /** Replaces the device with `d.id` by `d`. */
  function Replace(devs: seq<Device>, d: Device): (r: seq<Device>)
    requires Registered(devs, d.id)
    ensures |r| == |devs| && r[IndexOf(devs, d.id)] == d
    ensures forall k :: 0 <= k < |devs| && k != IndexOf(devs, d.id) ==> r[k] == devs[k]
  {
    devs[IndexOf(devs, d.id) := d]
  }

  // ---------------------------------------------------------------------
  // Configuration input and outcomes

  /** The `configData` fields; `None` is a field the caller left `undefined`. */
  datatype ConfigData = ConfigData(
    ip: Option<string>, subnet: Option<string>, gateway: Option<string>, dns: Option<string>,
    domainName: Option<string>,
    wanIp: Option<string>, wanSubnet: Option<string>, wanGateway: Option<string>, wanDns: Option<string>,
    lanIp: Option<string>, lanSubnet: Option<string>, lanGateway: Option<string>, lanDns: Option<string>,
    lan2Ip: Option<string>, lan2Subnet: Option<string>, lan2Gateway: Option<string>, lan2Dns: Option<string>,
    lan2Enabled: Option<bool>)

  datatype Field =
    | IpField | SubnetField | GatewayField | DnsField
    | WanIpField | WanSubnetField | WanGatewayField | WanDnsField
    | LanIpField | LanSubnetField | LanGatewayField | LanDnsField
    | Lan2IpField | Lan2SubnetField | Lan2GatewayField | Lan2DnsField
    | DnsRecordRejected

  /** `{ success: true }` or the field whose validation threw. */
  datatype Outcome = Success | Failure(field: Field)

  /** JavaScript truthiness of an optional string. */
  predicate Given(o: Option<string>) { o.Some? && o.value != "" }

  /** `x && x !== 'N/A'` */
  predicate GivenAddr(o: Option<string>) { Given(o) && o.value != "N/A" }

  /** `x && x !== '0.0.0.0'` */
  predicate GivenNonZero(o: Option<string>) { Given(o) && o.value != "0.0.0.0" }

  /** A trimmed string is empty exactly when every character is white space. */
  predicate BlankText(s: string) { forall i :: 0 <= i < |s| ==> IsJsSpace(s[i]) }

  // ---------------------------------------------------------------------
  // updateRouterConfig as a pure step function

  /** The interfaces written so far and whether a validation has thrown. */
  datatype Progress = Progress(ifs: RouterInterfaces, outcome: Outcome)

  /**
   * One validate-and-write step: skipped after a failure or when its guard
   * is false; otherwise either throws (keeping what was written) or writes.
   */
  function Step(p: Progress, guard: bool, valid: bool, field: Field, write: Write): (r: Progress)
    ensures p.outcome.Failure? ==> r == p
    ensures p.outcome.Success? && guard && !valid ==> r == Progress(p.ifs, Failure(field))
    ensures p.outcome.Success? && guard && valid ==> r == Progress(ApplyWrite(p.ifs, write), Success)
    ensures p.outcome.Success? && !guard ==> r == p
  {
    if p.outcome.Failure? || !guard then p
    else if !valid then Progress(p.ifs, Failure(field))
    else Progress(ApplyWrite(p.ifs, write), Success)
  }

  /** A LAN write, mirrored into `lan1` when the router has one. */
  function WriteLan(ifs: RouterInterfaces, slot: Slot, v: Addr): (r: RouterInterfaces)
    ensures r.lan == SetSlot(ifs.lan, slot, v) && r.wan == ifs.wan && r.lan2 == ifs.lan2
    ensures r.lan2Enabled == ifs.lan2Enabled
    ensures r.lan1.Some? <==> ifs.lan1.Some?
    ensures ifs.lan1.Some? ==> r.lan1.value == SetSlot(ifs.lan1.value, slot, v)
  {
    ifs.(lan := SetSlot(ifs.lan, slot, v), lan1 := if ifs.lan1.Some? then Some(SetSlot(ifs.lan1.value, slot, v)) else None)
  }

  function Value(o: Option<string>): string { if o.Some? then o.value else "" }

  datatype Side = WanSide | LanSide | Lan2Side
  datatype Slot = IpSlot | MaskSlot | GatewaySlot | DnsSlot

  /** A single write of `updateRouterConfig`. */
  datatype Write = WriteAddr(side: Side, slot: Slot, value: Addr) | WriteEnabled(on: bool)

  /** Writes a slot of an interface; a DNS write replaces the list by `[value]`. */
  function SetSlot(i: Interface, slot: Slot, v: Addr): Interface
  {
    match slot
    case IpSlot => i.(ip := v)
    case MaskSlot => i.(subnetMask := v)
    case GatewaySlot => i.(gateway := v)
    case DnsSlot => i.(dns := [v])
  }

  function ApplyWrite(x: RouterInterfaces, w: Write): RouterInterfaces
  {
    match w
    case WriteEnabled(on) => x.(lan2Enabled := on)
    case WriteAddr(side, slot, v) =>
      match side
      case WanSide => x.(wan := SetSlot(x.wan, slot, v))
      case LanSide => WriteLan(x, slot, v)
      case Lan2Side => x.(lan2 := SetSlot(x.lan2, slot, v))
  }

  /** One field of `updateRouterConfig`: its guard, its validation and its write. */
  datatype FieldStep = FieldStep(guard: bool, valid: bool, field: Field, write: Write)

  /** The field steps of `updateRouterConfig`, in source order. */
  function RouterSteps(cfg: ConfigData): (steps: seq<FieldStep>)
    ensures |steps| == 13
  {
    var wanIp := Value(cfg.wanIp);
    [FieldStep(GivenAddr(cfg.wanIp), SimpleIPCheck(wanIp), WanIpField, WriteAddr(WanSide, IpSlot, ToAddr(wanIp)))]
    + LaterRouterSteps(cfg)
  }

  /** The steps after the WAN address. */
  function LaterRouterSteps(cfg: ConfigData): (steps: seq<FieldStep>)
    ensures |steps| == 12
  {
    var wanSubnet := Value(cfg.wanSubnet);
    var wanGateway := Value(cfg.wanGateway);
    var wanDns := Value(cfg.wanDns);
    var lanIp := Value(cfg.lanIp);
    var lanSubnet := Value(cfg.lanSubnet);
    var lanGateway := Value(cfg.lanGateway);
    var lanDns := Value(cfg.lanDns);
    var lan2Ip := Value(cfg.lan2Ip);
    var lan2Subnet := Value(cfg.lan2Subnet);
    var lan2Gateway := Value(cfg.lan2Gateway);
    var lan2Dns := Value(cfg.lan2Dns);
    [ FieldStep(Given(cfg.wanSubnet), SimpleSubnetCheck(wanSubnet), WanSubnetField,
                WriteAddr(WanSide, MaskSlot, ToAddr(wanSubnet))),
      FieldStep(GivenNonZero(cfg.wanGateway), SimpleIPCheck(wanGateway), WanGatewayField,
                WriteAddr(WanSide, GatewaySlot, ToAddr(wanGateway))),
      FieldStep(GivenNonZero(cfg.wanDns), SimpleIPCheck(wanDns), WanDnsField, WriteAddr(WanSide, DnsSlot, ToAddr(wanDns))),
      FieldStep(GivenAddr(cfg.lanIp), SimpleIPCheck(lanIp), LanIpField, WriteAddr(LanSide, IpSlot, ToAddr(lanIp))),
      FieldStep(Given(cfg.lanSubnet), SimpleSubnetCheck(lanSubnet), LanSubnetField,
                WriteAddr(LanSide, MaskSlot, ToAddr(lanSubnet))),
      FieldStep(GivenNonZero(cfg.lanGateway), SimpleIPCheck(lanGateway), LanGatewayField,
                WriteAddr(LanSide, GatewaySlot, ToAddr(lanGateway))),
      FieldStep(GivenNonZero(cfg.lanDns), SimpleIPCheck(lanDns), LanDnsField, WriteAddr(LanSide, DnsSlot, ToAddr(lanDns))),
      // lan2Ip is only compared with undefined and 'N/A', so '' is validated and written
      FieldStep(cfg.lan2Ip.Some? && lan2Ip != "N/A", SimpleIPCheck(lan2Ip), Lan2IpField,
                WriteAddr(Lan2Side, IpSlot, ToAddr(lan2Ip))),
      FieldStep(Given(cfg.lan2Subnet), SimpleSubnetCheck(lan2Subnet), Lan2SubnetField,
                WriteAddr(Lan2Side, MaskSlot, ToAddr(lan2Subnet))),
      FieldStep(GivenNonZero(cfg.lan2Gateway), SimpleIPCheck(lan2Gateway), Lan2GatewayField,
                WriteAddr(Lan2Side, GatewaySlot, ToAddr(lan2Gateway))),
      // lan2Dns is only compared with undefined and '0.0.0.0'
      FieldStep(cfg.lan2Dns.Some? && lan2Dns != "0.0.0.0", SimpleIPCheck(lan2Dns), Lan2DnsField,
                WriteAddr(Lan2Side, DnsSlot, ToAddr(lan2Dns))),
      // lan2Enabled is written without validation
      FieldStep(cfg.lan2Enabled.Some?, true, Lan2IpField, WriteEnabled(cfg.lan2Enabled == Some(true)))
    ]
  }

  function Run(p: Progress, steps: seq<FieldStep>): Progress
    decreases |steps|
  {
    if steps == [] then p
    else Run(Step(p, steps[0].guard, steps[0].valid, steps[0].field, steps[0].write), steps[1..])
  }

  /** `updateRouterConfig` on the router's interfaces. */
  function ApplyRouterConfig(ifs: RouterInterfaces, cfg: ConfigData): Progress
  {
    Run(Progress(ifs, Success), RouterSteps(cfg))
  }

  /** A property every write keeps holds after any run of steps. */
  lemma {:induction false} RunPreserves(p: Progress, steps: seq<FieldStep>, P: RouterInterfaces -> bool)
    requires P(p.ifs)
    requires forall i, x :: 0 <= i < |steps| && P(x) ==> P(ApplyWrite(x, steps[i].write))
    ensures P(Run(p, steps).ifs)
    decreases |steps|
  {
    if steps != [] {
      var q := Step(p, steps[0].guard, steps[0].valid, steps[0].field, steps[0].write);
      assert P(q.ifs);
      forall i, x | 0 <= i < |steps[1..]| && P(x) ensures P(ApplyWrite(x, steps[1..][i].write)) {
        assert steps[1..][i] == steps[i + 1];
      }
      RunPreserves(q, steps[1..], P);
    }
  }

  /** A run that starts without failure can only fail on one of its own fields. */
  lemma {:induction false} RunFailsOnItsFields(p: Progress, steps: seq<FieldStep>)
    requires p.outcome.Success? && Run(p, steps).outcome.Failure?
    ensures exists i :: 0 <= i < |steps| && steps[i].field == Run(p, steps).outcome.field
    decreases |steps|
  {
    var q := Step(p, steps[0].guard, steps[0].valid, steps[0].field, steps[0].write);
    if q.outcome.Failure? {
      RunKeepsFailure(q, steps[1..]);
    } else {
      RunFailsOnItsFields(q, steps[1..]);
      var i :| 0 <= i < |steps[1..]| && steps[1..][i].field == Run(p, steps).outcome.field;
      assert steps[i + 1] == steps[1..][i];
    }
  }

  lemma {:induction false} RunKeepsFailure(p: Progress, steps: seq<FieldStep>)
    requires p.outcome.Failure?
    ensures Run(p, steps) == p
    decreases |steps|
  {
    if steps != [] {
      RunKeepsFailure(p, steps[1..]);
    }
  }

  /**
   * The effect of `updateStandardDeviceConfig` on the device, the outcome,
   * and the record `(domainName, ip)` it hands to the DNS store when the
   * device has a usable address.
   */
  datatype StandardUpdate = StandardUpdate(device: Device, outcome: Outcome, register: Option<(string, Addr)>)

  function ApplyStandardConfig(d: Device, cfg: ConfigData): (u: StandardUpdate)
    ensures u.device.id == d.id && u.device.kind == d.kind
    ensures u.device.connections == d.connections && u.device.interfaces == d.interfaces
  {
    if d.kind == Switch && !GivenAddr(cfg.ip) then
      StandardUpdate(d.(ip := NA, subnetMask := Mask24, gateway := Zero, dns := []), Success, None)
    else if GivenAddr(cfg.ip) && !SimpleIPCheck(cfg.ip.value) then
      StandardUpdate(d, Failure(IpField), None)
    else
      var d1 := if GivenAddr(cfg.ip) then d.(ip := ToAddr(cfg.ip.value)) else d;
      if Given(cfg.subnet) && !SimpleSubnetCheck(cfg.subnet.value) then
        StandardUpdate(d1, Failure(SubnetField), None)
      else
        var d2 := if Given(cfg.subnet) then d1.(subnetMask := ToAddr(cfg.subnet.value)) else d1;
        if GivenNonZero(cfg.gateway) && !SimpleIPCheck(cfg.gateway.value) then
          StandardUpdate(d2, Failure(GatewayField), None)
        else
          var d3 := if GivenNonZero(cfg.gateway) then d2.(gateway := ToAddr(cfg.gateway.value)) else d2;
          if GivenNonZero(cfg.dns) && !SimpleIPCheck(cfg.dns.value) then
            StandardUpdate(d3, Failure(DnsField), None)
          else
            var d4 := if GivenNonZero(cfg.dns) then d3.(dns := [ToAddr(cfg.dns.value)]) else d3;
            if Given(cfg.domainName) && !BlankText(cfg.domainName.value) then
              var d5 := d4.(domainName := cfg.domainName);
              StandardUpdate(d5, Success, if Present(d5.ip) then Some((cfg.domainName.value, d5.ip)) else None)
            else StandardUpdate(d4, Success, None)
  }

  predicate WritesWanIp(w: Write) { w.WriteAddr? && w.side == WanSide && w.slot == IpSlot }

  lemma LaterStepsLeaveWanIp(cfg: ConfigData)
    ensures forall i :: 0 <= i < 12 ==>
      LaterRouterSteps(cfg)[i].field != WanIpField && !WritesWanIp(LaterRouterSteps(cfg)[i].write)
  {
  }

  /**
   * Fields are validated and written in order: a WAN address that validated
   * stays written when a later field fails validation.
   */
  lemma EarlierWriteSurvivesLaterFailure(ifs: RouterInterfaces, cfg: ConfigData)
    requires GivenAddr(cfg.wanIp) && SimpleIPCheck(cfg.wanIp.value)
    requires ApplyRouterConfig(ifs, cfg).outcome.Failure?
    ensures ApplyRouterConfig(ifs, cfg).outcome.field != WanIpField
    ensures ApplyRouterConfig(ifs, cfg).ifs.wan.ip == ToAddr(cfg.wanIp.value)
  {
    var steps := RouterSteps(cfg);
    var rest := LaterRouterSteps(cfg);
    assert steps[1..] == rest;
    LaterStepsLeaveWanIp(cfg);
    var v := ToAddr(cfg.wanIp.value);
    var p := Progress(ifs, Success);
    var q := Progress(ApplyWrite(ifs, WriteAddr(WanSide, IpSlot, v)), Success);
    assert Run(p, steps) == Run(q, rest);
    var P := (x: RouterInterfaces) => x.wan.ip == v;
    forall i, x | 0 <= i < |rest| && P(x) ensures P(ApplyWrite(x, rest[i].write)) {
      OtherWriteKeepsWanIp(x, rest[i].write);
    }
    RunPreserves(q, rest, P);
    RunFailsOnItsFields(q, rest);
  }

  lemma OtherWriteKeepsWanIp(x: RouterInterfaces, w: Write)
    requires !WritesWanIp(w)
    ensures ApplyWrite(x, w).wan.ip == x.wan.ip
  {
  }

    lemma ApplyWriteKeepsLan1(x: RouterInterfaces, w: Write)
    ensures ApplyWrite(x, w).lan1.Some? <==> x.lan1.Some?
    ensures x.lan1 == Some(x.lan) ==> ApplyWrite(x, w).lan1 == Some(ApplyWrite(x, w).lan)
  {
  }

  /** Every LAN write is mirrored: a `lan1` that agrees with `lan` still agrees afterwards. */
  lemma LanMirroredIntoLan1(ifs: RouterInterfaces, cfg: ConfigData)
    ensures ApplyRouterConfig(ifs, cfg).ifs.lan1.Some? <==> ifs.lan1.Some?
    ensures ifs.lan1 == Some(ifs.lan) ==> ApplyRouterConfig(ifs, cfg).ifs.lan1 == Some(ApplyRouterConfig(ifs, cfg).ifs.lan)
  {
    var steps := RouterSteps(cfg);
    var p := Progress(ifs, Success);
    var HasLan1 := (x: RouterInterfaces) => x.lan1.Some? == ifs.lan1.Some?;
    forall i, x | 0 <= i < |steps| && HasLan1(x) ensures HasLan1(ApplyWrite(x, steps[i].write)) {
      ApplyWriteKeepsLan1(x, steps[i].write);
    }
    RunPreserves(p, steps, HasLan1);
    if ifs.lan1 == Some(ifs.lan) {
      var Synced := (x: RouterInterfaces) => x.lan1 == Some(x.lan);
      forall i, x | 0 <= i < |steps| && Synced(x) ensures Synced(ApplyWrite(x, steps[i].write)) {
        ApplyWriteKeepsLan1(x, steps[i].write);
      }
      RunPreserves(p, steps, Synced);
    }
  }

  /** All supplied standard fields are acceptable to the validators. */
  predicate StandardFieldsValid(cfg: ConfigData)
  {
    (GivenAddr(cfg.ip) ==> SimpleIPCheck(cfg.ip.value))
    && (Given(cfg.subnet) ==> SimpleSubnetCheck(cfg.subnet.value))
    && (GivenNonZero(cfg.gateway) ==> SimpleIPCheck(cfg.gateway.value))
    && (GivenNonZero(cfg.dns) ==> SimpleIPCheck(cfg.dns.value))
  }

  /**
   * `updateStandardDeviceConfig` succeeds exactly when the switch reset
   * applies or every supplied field validates; a switch given no address
   * (empty, `'N/A'` or missing) is reset to the unmanaged defaults; an
   * invalid address is rejected before anything is written; a gateway of
   * `'0.0.0.0'` keeps the old gateway.
   */
  lemma {:induction false} StandardConfigOutcome(d: Device, cfg: ConfigData)
    ensures var u := ApplyStandardConfig(d, cfg);
      u.outcome.Success? <==> (d.kind == Switch && !GivenAddr(cfg.ip)) || StandardFieldsValid(cfg)
    ensures d.kind == Switch && !GivenAddr(cfg.ip) ==>
      var u := ApplyStandardConfig(d, cfg);
      u.device.ip == NA && u.device.subnetMask == Mask24 && u.device.gateway == Zero && u.device.dns == []
    ensures GivenAddr(cfg.ip) && !SimpleIPCheck(cfg.ip.value) ==> ApplyStandardConfig(d, cfg).device == d
    ensures cfg.gateway == Some("0.0.0.0") ==>
      ApplyStandardConfig(d, cfg).device.gateway == (if d.kind == Switch && !GivenAddr(cfg.ip) then Zero else d.gateway)
    ensures var u := ApplyStandardConfig(d, cfg);
      u.outcome.Success? && StandardFieldsValid(cfg) && GivenAddr(cfg.ip) ==> u.device.ip == ToAddr(cfg.ip.value)
  {
  }

  // ---------------------------------------------------------------------
  // The registry

  class DeviceManager {
    var devices: seq<Device>
    var deviceCounter: nat

    ghost predicate Valid()
      reads this
    {
      deviceCounter >= 1 && UniqueIds(devices)
      && forall i :: 0 <= i < |devices| ==> devices[i].id < deviceCounter
    }

    constructor ()
      ensures Valid() && devices == [] && deviceCounter == 1
    {
      devices := [];
      deviceCounter := 1;
    }

    /**
     * `addDevice(type, ...)`: the new device gets id `device-<counter>`,
     * the name `<type label> <counter>`, the defaults of its kind, and is
     * appended to the registry.
     */
    method AddDevice(kind: Kind, typeLabel: string, randomIp: Addr) returns (d: Device)
      requires Valid()
      modifies this
      ensures Valid()
      ensures d == NewDevice(old(devices), old(deviceCounter), kind, typeLabel + " " + Digits(old(deviceCounter)), randomIp)
      ensures devices == old(devices) + [d] && deviceCounter == old(deviceCounter) + 1
      ensures !Registered(old(devices), d.id)
    {
      var id := deviceCounter;
      deviceCounter := deviceCounter + 1;
      d := NewDevice(devices, id, kind, typeLabel + " " + Digits(id), randomIp);
      devices := devices + [d];
    }

    /**
     * `removeDevice(device)`: the device leaves the registry; the hook that
     * would remove its connections is not installed by the simulator, so
     * nothing else changes.
     */
    method RemoveDevice(id: DeviceId)
      requires Valid()
      modifies this
      ensures Valid() && deviceCounter == old(deviceCounter)
      ensures !Registered(devices, id)
      ensures Registered(old(devices), id) ==>
        devices == old(devices)[..IndexOf(old(devices), id)] + old(devices)[IndexOf(old(devices), id) + 1..]
      ensures !Registered(old(devices), id) ==> devices == old(devices)
    {
      if Registered(devices, id) {
        var i := IndexOf(devices, id);
        devices := devices[..i] + devices[i + 1..];
        assert forall k :: 0 <= k < |devices| ==> devices[k] == (if k < i then old(devices)[k] else old(devices)[k + 1]);
      }
    }

    /**
     * `updateRouterConfig(router, configData)`: validates and writes the
     * fields in order; a failing validation keeps the fields written before
     * it.
     */
    method UpdateRouterConfig(id: DeviceId, cfg: ConfigData) returns (r: Outcome)
      requires Valid() && Registered(devices, id) && devices[IndexOf(devices, id)].kind == Router
      modifies this
      ensures Valid() && deviceCounter == old(deviceCounter)
      ensures var d := old(devices)[IndexOf(old(devices), id)];
              var p := ApplyRouterConfig(d.interfaces, cfg);
              r == p.outcome && devices == Replace(old(devices), d.(interfaces := p.ifs))
    {
      var i := IndexOf(devices, id);
      var p := ApplyRouterConfig(devices[i].interfaces, cfg);
      devices := devices[i := devices[i].(interfaces := p.ifs)];
      r := p.outcome;
    }

    /**
     * `updateStandardDeviceConfig(device, configData)` minus the hand-off to
     * the DNS store, which the returned `register` carries.
     */
    method UpdateStandardDeviceConfig(id: DeviceId, cfg: ConfigData) returns (r: Outcome, register: Option<(string, Addr)>)
      requires Valid() && Registered(devices, id)
      modifies this
      ensures Valid() && deviceCounter == old(deviceCounter)
      ensures var u := ApplyStandardConfig(old(devices)[IndexOf(old(devices), id)], cfg);
              r == u.outcome && register == u.register && devices == Replace(old(devices), u.device)
    {
      var i := IndexOf(devices, id);
      var u := ApplyStandardConfig(devices[i], cfg);
      devices := devices[i := u.device];
      r, register := u.outcome, u.register;
    }

    /**
     * `assignToLAN2(device)`: a non-router device moves into the first
     * router's enabled LAN2, at the first address `<lan2 /24>.k`,
     * k = 10..109, that no device owns.
     */
    method AssignToLAN2(id: DeviceId) returns (ok: bool)
      requires Valid() && Registered(devices, id)
      modifies this
      ensures Valid() && deviceCounter == old(deviceCounter)
      ensures ok <==> Lan2Slot(old(devices), id).Some?
      ensures ok ==>
        var k := Lan2Slot(old(devices), id).value;
        var lan2 := FirstRouter(old(devices)).value.interfaces.lan2;
        var d := old(devices)[IndexOf(old(devices), id)];
        devices == Replace(old(devices), d.(ip := Quad(lan2.ip.a, lan2.ip.b, lan2.ip.c, k),
                                            subnetMask := lan2.subnetMask, gateway := lan2.ip, dns := lan2.dns))
      ensures !ok ==> devices == old(devices)
    {
      var i := IndexOf(devices, id);
      if devices[i].kind == Router {
        return false;
      }
      var router := FirstRouter(devices);
      if router.None? || !router.value.interfaces.lan2Enabled || !router.value.interfaces.lan2.ip.Quad? {
        return false;
      }
      var lan2 := router.value.interfaces.lan2;
      var lastOctet: nat := 10;
      var attempts: nat := 0;
      while attempts < 100
        invariant lastOctet == 10 + attempts && attempts <= 100
        invariant devices == old(devices)
        invariant FirstFree(devices, lan2.ip.a, lan2.ip.b, lan2.ip.c, 10, 110, None)
               == FirstFree(devices, lan2.ip.a, lan2.ip.b, lan2.ip.c, lastOctet, 110, None)
        decreases 100 - attempts
      {
        var candidate := Quad(lan2.ip.a, lan2.ip.b, lan2.ip.c, lastOctet as Octet);
        if FindByIP(devices, candidate).None? {
          Overwrite(i, devices[i].(ip := candidate, subnetMask := lan2.subnetMask, gateway := lan2.ip, dns := lan2.dns));
          return true;
        }
        lastOctet := lastOctet + 1;
        attempts := attempts + 1;
      }
      return false;
    }

    /** The entry at `i` rewritten to `d`, which keeps its id. */
    method Overwrite(i: nat, d: Device)
      requires Valid() && i < |devices| && d.id == devices[i].id
      modifies this
      ensures Valid() && deviceCounter == old(deviceCounter) && devices == old(devices)[i := d]
    {
      var updated := devices[i := d];
      assert forall k :: 0 <= k < |updated| ==> updated[k].id == devices[k].id;
      devices := updated;
    }
  }

  /**
   * The last octet `assignToLAN2` picks, or `None` when it answers false.
   * Where the first router's LAN2 address is empty the source builds the
   * malformed address `'.10'`; the model answers false there.
   */
  function Lan2Slot(devs: seq<Device>, id: DeviceId): (r: Option<Octet>)
    requires Registered(devs, id)
    ensures r.None? ==>
      devs[IndexOf(devs, id)].kind == Router || FirstRouter(devs).None?
      || !FirstRouter(devs).value.interfaces.lan2Enabled || !FirstRouter(devs).value.interfaces.lan2.ip.Quad?
      || var lan2 := FirstRouter(devs).value.interfaces.lan2;
         forall k: Octet :: 10 <= k <= 109 ==> FindByIP(devs, Quad(lan2.ip.a, lan2.ip.b, lan2.ip.c, k)).Some?
    ensures r.Some? ==> devs[IndexOf(devs, id)].kind != Router
    ensures r.Some? ==> FirstRouter(devs).Some? && FirstRouter(devs).value.interfaces.lan2Enabled
    ensures r.Some? ==> var lan2 := FirstRouter(devs).value.interfaces.lan2;
      lan2.ip.Quad? && 10 <= r.value <= 109
      && FindByIP(devs, Quad(lan2.ip.a, lan2.ip.b, lan2.ip.c, r.value)).None?
      && forall k: Octet :: 10 <= k < r.value ==> FindByIP(devs, Quad(lan2.ip.a, lan2.ip.b, lan2.ip.c, k)).Some?
  {
    var router := FirstRouter(devs);
    if devs[IndexOf(devs, id)].kind == Router || router.None? || !router.value.interfaces.lan2Enabled
       || !router.value.interfaces.lan2.ip.Quad? then None
    else
      var lan2 := router.value.interfaces.lan2;
      FirstFree(devs, lan2.ip.a, lan2.ip.b, lan2.ip.c, 10, 110, None)
  }
}
