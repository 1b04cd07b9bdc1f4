# NetSim network core in Dafny

NetSim is a browser network simulator. The user places routers, switches,
clouds, DNS servers and end hosts, wires them together, and asks whether two
devices can talk. This project models the three managers that hold the
simulator's state, and proves properties about them:

- the **connection manager** (`assets/js/connections.js`);
- the **device manager** (`assets/js/devices.js`);
- the **DNS manager** (`assets/js/dns.js`).

**The connection manager** has one class, `Connections.ConnectionManager`. Its
field `connections` is the registry of connections, and its methods push onto
it and splice from it the way the source does.

- Every device keeps the list of its connection ids.
- Every router keeps a `connectionInterfaces` table, mapping a connection id to
  `wan`, `lan` or `lan2`. Routers also keep a routing table.
- The decisions are functions over a snapshot `Net(links, devices)`:
  - the breadth-first path finder (`Paths`);
  - the chain of reachability tests (`Reachability`);
  - interface choice and automatic routes (`Routing`);
  - address allocation (`Allocation`).
- The registry operations are specified as functions over `Reg(conns, devices)`
  (`Registry`). Every state-changing method of the class is proved to leave
  exactly the state those functions describe.
- The invariants the bookkeeping keeps are in `Topology` and `Bookkeeping`:
  - a device's connection list is exactly the connections touching it;
  - bindings exist only on routers, and only for connections the router lists;
  - at most one connection joins an unordered pair of devices.

**The device manager** is `Devices.DeviceManager`. It holds a device sequence
and its id counter. It looks devices up by id, address and domain. Config
updates validate fields and write them one by one: `updateRouterConfig` is a
sequence of validate-then-write steps that stops at the first invalid field.
The text checks `simpleIPCheck` and `simpleSubnetCheck` are modelled on
strings, including JavaScript `split` and `parseInt` (`IpText`).

**The DNS manager** is `Dns.DNSManager`. It holds the global record map. It
resolves a name in this order: the device cache, then the configured server,
then the records, and finally it fills the cache. It also lists the records
sorted for display.

Addresses are held parsed: `Addr` is `Unset` (an empty or missing value), `NA`
(`'N/A'`) or a dotted quad of `Octet`s. The network of an address under a mask
is the per-octet bitwise AND, written out on natural numbers.

`areInSameNetwork` comes from a file that is not part of this model. It is
taken to mean that the two addresses have equal networks under their own masks
(`Addressing.AreInSameNetwork`). `isValidIP`, from the same file, is a
parameter of `Dns.DNSManager`.

`autoGenerateRoutesForRouter` adds routes for the LAN, the WAN, the router's
peers and the default route, and none for an enabled LAN2.

## Model

| member | source | states |
|---|---|---|
| Addressing.MaskOr24 | assets/js/connections.js:54-60 | a missing mask reads as /24; a present one is kept |
| Addressing.NetworkFromIP | assets/js/connections.js:1817-1830 | the network of an address under a mask is a dotted quad for every input, so a missing address or mask never makes it fail |
| Addressing.NetworkAddress | assets/js/connections.js:1700-1707 | a network exists exactly when the address is a quad and a mask is given, and then it is the per-octet AND |
| Addressing.NetworkIsInItsNetwork | assets/js/connections.js:1709-1712 | a network address lies inside its own network under the same mask |
| Addressing.NetworkUnderMask24 | assets/js/connections.js:1817-1830 | under 255.255.255.0 the network is the first three octets followed by 0 |
| Addressing.SameNetworkUnderMask24 | assets/js/connections.js:1709-1712 | two quads are in the same /24 network exactly when their first three octets agree |
| Addressing.AndWithFull | assets/js/connections.js:1817-1830 | ANDing an octet with 255 leaves it unchanged |
| Addressing.IsExternalIPMatchesBlocks | assets/js/connections.js:78-92 | an address is external exactly when it is a quad outside 10/8, 172.16/12, 192.168/16, 127/8, 169.254/16 and 203.0.113/24, each given as an independent interval of addresses; an empty or `N/A` value is never external, and 0.0.0.0 is |
| Addressing.IsExternalIP | assets/js/connections.js:78-92 | external exactly for quads outside the private and reserved blocks (stated by `Addressing.IsExternalIPMatchesBlocks`) |
| Addressing.IsIPInNetwork | assets/js/connections.js:1709-1712 | a network address is in its own network (stated by `Addressing.NetworkIsInItsNetwork`) |
| Addressing.AreInSameNetwork | assets/js/connections.js:1584 | under /24 masks, agreement of the first three octets (stated by `Addressing.SameNetworkUnderMask24`) |
| IpText.Split | assets/js/devices.js:441-457 | splitting a string on a separator always gives at least one piece |
| IpText.TrimStart | assets/js/devices.js:441-457 | stripping leading white space leaves a suffix of the input that does not start with white space |
| IpText.DigitPrefix | assets/js/devices.js:441-457 | `parseInt` reads the longest prefix made only of digits |
| IpText.ParseIntOfDigits | assets/js/devices.js:441-457 | `parseInt` of the decimal spelling of n is n |
| IpText.FormatRoundTrip | assets/js/devices.js:441-457 | every dotted quad written in decimal passes `simpleIPCheck` and reads back as the same address |
| IpText.SimpleIPCheck | assets/js/devices.js:441-457 | every canonically written dotted quad passes (stated by `IpText.FormatRoundTrip`) |
| IpText.ParseInt | assets/js/devices.js:450 | the decimal spelling of n parses to n (stated by `IpText.ParseIntOfDigits`) |
| IpText.SimpleSubnetCheck | assets/js/devices.js:460-482 | accepts exactly the quads other than 0.0.0.0 when written canonically (stated by `IpText.SubnetCheckOfFormat`) |
| IpText.SubnetCheckOfFormat | assets/js/devices.js:460-482 | the canonical spelling of a dotted quad passes `simpleSubnetCheck` exactly when the quad is not 0.0.0.0, so non-contiguous masks pass |
| IpText.SubnetCheckAcceptsNonMasks | assets/js/devices.js:460-482 | `simpleSubnetCheck` accepts `N/A` and the non-contiguous 255.0.255.0, and rejects the empty string and 0.0.0.0 |
| Topology.Links | assets/js/connections.js:633-690 | the link view of the registry has one entry per connection, with the same id and ends |
| Topology.Connected | assets/js/connections.js:1563-1576 | two devices are connected exactly when some registered connection joins them, in either order |
| Topology.ConnectedSymmetric | assets/js/connections.js:1563-1576 | adjacency does not depend on the order of the two devices |
| Topology.FindPair | assets/js/connections.js:647-650 | the existing-connection lookup finds nothing exactly when the pair is not connected; otherwise it finds a connection joining them |
| Topology.Degree | assets/js/connections.js:350-409 | a device's connection count is at most the registry size, and is 0 exactly when no connection touches it |
| Topology.Without | assets/js/connections.js:310-346 | filtering out used interfaces keeps exactly the offered interfaces that are not used |
| Topology.FreeInterfaces | assets/js/connections.js:310-346 | `wan` is free exactly when no connection uses it; `lan` exactly when its address is not `'N/A'` and it is unused; `lan2` exactly when its address is not `'N/A'`, it is enabled and it is unused |
| Topology.UsedInterfaces | assets/js/connections.js:199-225 | the interfaces recorded on a router's end of its connections; a used one is no longer free (stated by `Topology.FreeInterfaces` and `Registry.RouterDeviceConnectUses`) |
| Topology.CanAccept | assets/js/connections.js:350-409 | null is refused and a switch always accepted; a router with 3 or more connections is refused, otherwise it accepts exactly when no interface is asked for or the one asked for is free (for `wan`: not used); any other device accepts exactly when it has no connection |
| Topology.IncidentConcat | assets/js/connections.js:633-690 | the connection ids touching a device in two registries joined together are those of the first followed by those of the second |
| Topology.InIncident | assets/js/connections.js:633-690 | an id is in a device's derived list exactly when some connection with that id touches the device |
| Topology.RemoveFirst | assets/js/connections.js:1038-1107 | splicing an id out of a list removes one occurrence when present, changes nothing when absent, and keeps every other id |
| Topology.RemoveFirstPast | assets/js/connections.js:1038-1107 | splicing removes exactly the first occurrence |
| Topology.SetBinding | assets/js/connections.js:797-843 | setting a router's interface for a connection binds it, keeps the other bindings, and keeps the keys unique |
| Topology.DeleteKey | assets/js/connections.js:1038-1107 | deleting a binding drops exactly the bindings of that connection and keeps the keys unique |
| Bookkeeping.AttachEntries | assets/js/connections.js:633-690 | pushing a new connection adds its id to the lists of its two ends and changes no other device |
| Bookkeeping.AttachKeepsLinked | assets/js/connections.js:633-690 | a fresh connection pushed onto the registry and onto both end lists keeps every device's list equal to the connections touching it |
| Bookkeeping.AttachKeepsBindings | assets/js/connections.js:633-690 | a new connection keeps every binding pointing at a connection its router lists |
| Bookkeeping.AppendKeepsPairsUnique | assets/js/connections.js:633-690 | appending a connection for a pair not yet connected keeps at most one connection per unordered pair |
| Bookkeeping.UnlistKeepsLinked | assets/js/connections.js:1001-1036 | splicing a connection out of the registry and out of its ends' lists keeps the lists derived from the registry |
| Bookkeeping.DetachKeepsLinked | assets/js/connections.js:1038-1107 | removing a connection from the registry, and its id from both ends' lists and bindings, keeps the lists derived from the registry |
| Bookkeeping.DetachKeepsBindings | assets/js/connections.js:1038-1107 | removal keeps bindings on routers only, unique, and pointing at listed connections |
| Bookkeeping.DetachRetracts | assets/js/connections.js:1038-1107 | after removal no device lists the connection's id and no router binds it |
| Devices.NewDevice | assets/js/devices.js:79-233 | a new device has the given id, kind and name and no connections, bindings or routes; it carries the router interface defaults exactly when it is a router |
| Devices.FirstWhere | assets/js/devices.js:382-384 | a search finds nothing exactly when no element qualifies; otherwise it returns the first qualifying index |
| Devices.FindById | assets/js/devices.js:382-384 | `getDeviceById` finds nothing exactly when no device has the id; otherwise it returns the first device with it |
| Devices.FirstRouter | assets/js/devices.js:802-844 | the first router in registry order, and nothing exactly when there is no router |
| Devices.FindByIP | assets/js/devices.js:387-404 | empty, `N/A` and 0.0.0.0 find nothing; otherwise the result is the first device owning the address (routers by their wan, lan, lan1 or lan2 address), and nothing exactly when none does |
| Devices.FindByDomain | assets/js/devices.js:407-422 | a global record decides alone, through the address lookup; without one, the first device whose domain name matches, and nothing exactly when none does |
| Devices.FindDNSServer | assets/js/devices.js:425-438 | when some device is a DNS server, the first one in registry order is returned; otherwise the result is the first device owning the first router's first LAN DNS address, and nothing exactly when there is no router, no DNS entry, an unsearchable entry or no owner |
| Devices.FirstFree | assets/js/connections.js:155-195 | a scan of last octets returns the first one in range whose address no other device owns, or reports that every one is taken |
| Devices.Replace | assets/js/devices.js:485-495 | writing a device back changes its own entry and no other |
| Devices.Step | assets/js/devices.js:498-635 | one field of `updateRouterConfig`: skipped after an earlier throw or when the field is not given; throws on an invalid value, keeping earlier writes; otherwise written |
| Devices.WriteLan | assets/js/devices.js:498-635 | a LAN write is mirrored into `lan1` when it exists, and touches neither WAN nor LAN2 |
| Devices.RouterSteps | assets/js/devices.js:498-635 | `updateRouterConfig` validates and writes thirteen fields in order |
| Devices.RunKeepsFailure | assets/js/devices.js:498-635 | once a validation has thrown, no later field is validated or written |
| Devices.RunFailsOnItsFields | assets/js/devices.js:498-635 | a failed update names a field that is among its steps |
| Devices.RunPreserves | assets/js/devices.js:498-635 | a property that every single write keeps holds after the whole update, whether it throws or not |
| Devices.EarlierWriteSurvivesLaterFailure | assets/js/devices.js:498-635 | when a valid WAN address is given and a later field throws, the WAN address has still been written |
| Devices.LaterStepsLeaveWanIp | assets/js/devices.js:498-635 | no step after the first writes or validates the WAN address |
| Devices.LanMirroredIntoLan1 | assets/js/devices.js:498-635 | the update never creates or drops `lan1`, and a `lan1` equal to `lan` before stays equal after |
| Devices.ApplyStandardConfig | assets/js/devices.js:639-706 | a standard-device update never changes the device's id, kind, connections or router interfaces |
| Devices.StandardConfigOutcome | assets/js/devices.js:639-706 | the update succeeds exactly for a switch given no address, or when every given field is valid; a switch without an address is reset to `N/A`/24 with gateway 0.0.0.0 and no DNS; an invalid address leaves the device untouched; a 0.0.0.0 gateway keeps the old gateway; a valid address given is stored |
| Devices.Lan2Slot | assets/js/devices.js:802-844 | a LAN2 slot exists only for a non-router while the first router has LAN2 enabled, and it is the first last octet from 10 to 109 on the LAN2 network that no device owns; there is none exactly when the device is a router, there is no router, LAN2 is off, its address is not a quad, or every octet from 10 to 109 is taken |
| Devices.DeviceManager.constructor | assets/js/devices.js:28-32 | the registry starts empty and the counter at 1 |
| Devices.DeviceManager.AddDevice | assets/js/devices.js:35-54 | the new device gets the counter as id and the label plus that number as name; it is appended; the counter is incremented; the id was not in use |
| Devices.DeviceManager.RemoveDevice | assets/js/devices.js:331-353 | the device with the id is spliced out and nothing else changes; an unknown id changes nothing; afterwards no device has the id |
| Devices.DeviceManager.UpdateRouterConfig | assets/js/devices.js:498-635 | the router's interfaces become those of the stepwise update, including the writes made before a throw, and the outcome is its outcome |
| Devices.DeviceManager.UpdateStandardDeviceConfig | assets/js/devices.js:639-706 | the device becomes the standard update's device, and the outcome and the domain record to register are the update's |
| Devices.DeviceManager.AssignToLAN2 | assets/js/devices.js:802-844 | succeeds exactly when a LAN2 slot exists; then the device takes that address with the LAN2 mask, gateway and DNS, otherwise nothing changes |
| Paths.FindLink | assets/js/connections.js:1591-1612 | a connection id lookup finds a registered connection with that id, and finds nothing exactly when there is none |
| Paths.NeighborsVia | assets/js/connections.js:1591-1612 | every neighbour collected is a registry device reached through one of the listed connections |
| Paths.NeighborIsConnected | assets/js/connections.js:1591-1612 | every device `getConnectedDevices` returns is directly connected to the device asked about |
| Paths.Neighbors | assets/js/connections.js:1591-1612 | every neighbour returned is directly connected (stated by `Paths.NeighborIsConnected`) |
| Paths.Scan | assets/js/connections.js:1614-1651 | one BFS expansion only grows the visited set, by neighbours, and leaves the queue alone when it visits nothing new |
| Paths.ScanSound | assets/js/connections.js:1614-1651 | a path found while expanding is a walk from the start with no repeated device ending at the target; otherwise the queue stays well formed |
| Paths.BfsSound | assets/js/connections.js:1614-1651 | every path the BFS returns is a walk from the start over neighbours, without repeats, ending at the target |
| Paths.Bfs | assets/js/connections.js:1614-1651 | a returned path is a repeat-free walk to the target, and giving up leaves a neighbour-closed visited set without the target (stated by `Paths.BfsSound` and `Paths.BfsNoneClosed`) |
| Paths.FindPathSound | assets/js/connections.js:1614-1651 | the path is `[d]` for the same device and `[d1, d2]` for adjacent ones; otherwise it starts at d1, ends at d2, steps between neighbours and repeats no device |
| Paths.FindPathStepsAreConnections | assets/js/connections.js:1614-1651 | each consecutive pair of a returned path is joined by a registered connection |
| Paths.BfsNoneClosed | assets/js/connections.js:1614-1651 | when the BFS gives up, the visited devices form a set closed under neighbours that excludes the target |
| Paths.WalkStaysInClosedSet | assets/js/connections.js:1614-1651 | a walk that starts inside a set closed under neighbours never leaves it |
| Paths.FindPathComplete | assets/js/connections.js:1614-1651 | `null` is returned only when no walk from d1 reaches d2 |
| Paths.FindPath | assets/js/connections.js:1614-1651 | a path is found exactly when some walk joins the devices, and it is such a walk (stated by `Paths.FindPathSound` and `Paths.FindPathComplete`) |
| Reachability.DeviceIP | assets/js/connections.js:39-52 | a non-router's address is its own; a router with no bound interface answers with its LAN address |
| Reachability.DeviceSubnet | assets/js/connections.js:54-60 | a device's mask is never missing |
| Reachability.ViaSwitchNeedsDistance | assets/js/connections.js:1261-1276 | a switch path joins two different devices that are not directly connected |
| Reachability.ExternalViaRouters | assets/js/connections.js:1359-1559 | reaching an external peer through routers succeeds only through a router directly wired to the peer |
| Reachability.Routers | assets/js/connections.js:1359-1559 | the routers of the registry are exactly its router devices |
| Reachability.UsableGateway | assets/js/connections.js:1314-1357 | a gateway is used only when it is set, is a registry device, and is wired directly or through a switch |
| Reachability.CommunicateMonotone | assets/js/connections.js:1176-1224 | once the bounded decision settles, more fuel gives the same verdict |
| Reachability.DecideSettled | assets/js/connections.js:1176-1224 | the decision made with the full budget agrees with any settled decision made with less fuel |
| Reachability.Communicate | assets/js/connections.js:1176-1224 | a device reaches itself; unlinked devices are blocked; an external address reaches only a router; settled verdicts are fuel-independent (stated by `Reachability.SameDevice`, `Reachability.UnlinkedIsBlocked`, `Reachability.ExternalNeedsRouter` and `Reachability.CommunicateMonotone`) |
| Reachability.SameNetworkOrGateway | assets/js/connections.js:1226-1312 | plain devices on different networks with no gateway are blocked (stated by `Reachability.DifferentNetworksWithoutGateway`) |
| Reachability.GatewayComm | assets/js/connections.js:1314-1357 | gateways pointing at each other never settle (stated by `Reachability.GatewayCycleDiverges`) |
| Reachability.Decide | assets/js/connections.js:1176-1224 | agrees with every settled bounded decision, and leaves a gateway cycle undecided (stated by `Reachability.DecideSettled` and `Reachability.GatewayCycleUndecided`) |
| Reachability.GatewayCycleDiverges | assets/js/connections.js:1314-1357 | two devices whose gateways point at each other never settle, whatever the fuel: the source's mutual recursion does not terminate on them |
| Reachability.GatewayCycleUndecided | assets/js/connections.js:1314-1357 | such a gateway cycle leaves the decision undecided |
| Reachability.SameDevice | assets/js/connections.js:1176-1224 | a device can always talk to itself, not via a gateway |
| Reachability.UnlinkedIsBlocked | assets/js/connections.js:1176-1224 | two devices neither directly connected nor joined through a switch cannot talk |
| Reachability.ExternalNeedsRouter | assets/js/connections.js:1176-1224 | without a switch path, an external address can talk only to a router |
| Reachability.DifferentNetworksWithoutGateway | assets/js/connections.js:1278-1312 | two plain devices on different networks with no gateway set cannot talk |
| Reachability.RouterReachesWiredPeer | assets/js/connections.js:1371-1413 | a router reaches a cloud or router wired to it directly, whatever the interface addresses are |
| Reachability.RoutedHost | assets/js/connections.js:1517-1540 | a host that uses the router's LAN address as gateway is reached via the gateway, exactly when some route's network contains the host's address |
| Reachability.WithRouter | assets/js/connections.js:1359-1559 | a wired cloud or router peer is reached directly, and a host using the LAN address as gateway is reached via it exactly when a route covers it (stated by `Reachability.RouterReachesWiredPeer` and `Reachability.RoutedHost`) |
| Reachability.ExternalPeer | assets/js/connections.js:1443-1514 | an external peer is reached through routers only via a router wired to it (stated by `Reachability.ExternalViaRouters`) |
| Reachability.InternetAccessImpliesWanLooksUp | assets/js/connections.js:94-102 | a router with internet access passes the weaker WAN test used when deciding a path |
| Reachability.WanLooksUpIsWeaker | assets/js/connections.js:1478-1491 | some router passes the WAN test of the decision but has no internet access |
| Reachability.CommunicateWithPath | assets/js/connections.js:1653-1677 | no path, or a path of one device, gives "cannot communicate"; with a longer path the verdict is undecided exactly when the decision is; a positive answer carries the BFS path and the decision's gateway flag |
| Reachability.NoPathToItself | assets/js/connections.js:1653-1677 | a device asked about itself gets "cannot communicate", because its path has one device |
| Reachability.ShouldUseGateway | assets/js/connections.js:1578-1589 | no gateway is used by a device without an address; for quads under /24 masks on both sides, a gateway is used exactly when the first three octets differ |
| Routing.RouteExistsAfterPush | assets/js/connections.js:1832-1838 | after a push, a route key exists exactly when it existed before or is the pushed one |
| Routing.RouteExists | assets/js/connections.js:1832-1838 | a pushed route exists afterwards and existing ones stay (stated by `Routing.RouteExistsAfterPush`) |
| Routing.AppendMissingFresh | assets/js/connections.js:1714-1815 | no route added has a key already in the table |
| Routing.AppendMissingDistinct | assets/js/connections.js:1714-1815 | the added routes have pairwise distinct keys |
| Routing.AppendMissingCovers | assets/js/connections.js:1714-1815 | after adding, every candidate's key is in the table |
| Routing.AppendMissingSaturated | assets/js/connections.js:1714-1815 | nothing is added when every candidate's key already exists |
| Routing.AppendMissingConcat | assets/js/connections.js:1714-1815 | adding two batches of candidates equals adding the first, then the second against the grown table |
| Routing.InterfaceForDeviceSound | assets/js/connections.js:1840-1860 | the interface chosen for a device holds it when either the LAN or the WAN does; `wan` is chosen exactly when only the WAN holds it; `lan2` never is |
| Routing.FindConn | assets/js/connections.js:106-153 | finds a registered connection with the id, or reports that there is none |
| Routing.BoundInterface | assets/js/connections.js:106-153 | the first binding whose connection joins the two routers, and nothing exactly when there is none |
| Routing.InterfaceForRouterConnection | assets/js/connections.js:106-153 | a binding for the pair decides; otherwise `wan` exactly when the router's WAN is on the other's LAN network |
| Routing.RouterInterfacesComplement | assets/js/connections.js:106-153 | for unbound routers where only the first has its WAN on the other's LAN, the first is wired on `wan` and the second on `lan` |
| Routing.HasDeviceOnInterface | assets/js/connections.js:581-597 | a router has a device of the kind on the interface exactly when some binding on that interface leads to such a device |
| Routing.ConnectedDevices | assets/js/connections.js:1714-1815 | the peers collected number at most the connections |
| Routing.AutoRoutesProperties | assets/js/connections.js:1714-1815 | generated routes are new and pairwise distinct, every candidate route is present afterwards, and a non-router gets none |
| Routing.AutoRoutesIdempotent | assets/js/connections.js:1714-1815 | generating routes a second time with nothing else changed adds nothing |
| Routing.Candidates | assets/js/connections.js:1714-1815 | every candidate route is in the table after generation (stated by `Routing.AutoRoutesProperties`) |
| Routing.AutoRoutes | assets/js/connections.js:1714-1815 | the added routes are new, distinct and cover the candidates, a non-router gets none, and a second run adds nothing (stated by `Routing.AutoRoutesProperties` and `Routing.AutoRoutesIdempotent`) |
| Routing.GeneratedRoutesAreNeverDefaultEntries | assets/js/connections.js:1795 | no generated route matches the default-route test, which reads `destination` while the generator writes `network` |
| Routing.GeneratedDefaultRouteGoesUnseen | assets/js/connections.js:1788-1800 | with a WAN gateway set, a default route 0.0.0.0/0 is generated, yet the router still counts as having no default route |
| Routing.LanRouteReachesLan | assets/js/connections.js:600-628 | the route added for a peer router's LAN makes that LAN address routable |
| Routing.ConnectedDevicesAfterTableChange | assets/js/connections.js:1714-1815 | changing one device's routing table does not change which peers are collected, up to their tables |
| Allocation.PeerWan | assets/js/connections.js:155-195 | a configured WAN is kept; otherwise, when the other LAN is configured and some `<other LAN /24>.k`, k from 2 to 254, is free, the WAN takes the first free k, with the other LAN as gateway and its mask (/24 when missing); when none is free or the LAN is unset, the fallback 192.168.1.6/24 via 192.168.1.1; the DNS list is kept |
| Allocation.PeerWanFallsBackOnlyWhenFull | assets/js/connections.js:155-195 | the fallback is taken for a configured LAN outside 192.168.1/24 only when every k from 2 to 254 is taken |
| Allocation.CloudWan | assets/js/connections.js:846-882 | when the cloud address is configured and some `<cloud /24>.k`, k from 2 to 253, is free, the WAN takes the first free k with mask /24 and the cloud as gateway; otherwise the fallback 192.168.1.6/24 via 192.168.1.1; the DNS list is kept |
| Allocation.HostInRange | assets/js/connections.js:933-949 | without a base, 192.168.1.10; otherwise an address on the base /24 from the start octet on. When some octet from start to 254 is free, it is the first free one, so never .255 for a start up to 254; when none is, it is `<base /24>.start` |
| Allocation.HostInRangeFree | assets/js/connections.js:933-949 | the address given out is free exactly when some address of the range is |
| Allocation.HostSettingFor | assets/js/connections.js:885-930 | a configured device is left alone. On the LAN it takes a host address there, with the LAN as gateway and its mask. On LAN2 it does the same exactly when LAN2 is enabled. On the WAN it does the same exactly when the WAN has an address, with the WAN gateway, or else the WAN address, as gateway |
| Allocation.HostLandsOnLan | assets/js/connections.js:885-930 | a device addressed behind a /24 LAN is on that LAN's network with the LAN address as gateway |
| Registry.Classify | assets/js/connections.js:633-690 | recording a verdict keeps the connection's ends and interfaces; `routed` exactly when via a gateway; no verdict keeps it as it is |
| Registry.BasicConnect | assets/js/connections.js:633-690 | a capacity refusal changes nothing and returns nothing; an existing connection for the pair is returned unchanged; otherwise exactly one connection with the fresh id is appended |
| Registry.BasicConnectAdds | assets/js/connections.js:633-690 | a new connection adds its id to both ends' lists only, and is `routed` exactly when the verdict goes via a gateway |
| Registry.BasicConnectKeeps | assets/js/connections.js:633-690 | creating a connection keeps the registry consistent and keeps pairs unique |
| Registry.AdmitKeeps | assets/js/connections.js:951-997 | pushing a connection with a fresh id keeps the registry consistent, and keeps pairs unique for a new pair |
| Registry.FindConnId | assets/js/connections.js:951-997 | an id lookup finds nothing exactly when the id is fresh |
| Registry.ConnectWithId | assets/js/connections.js:951-997 | a refusal changes nothing; an id in use returns that connection unchanged; otherwise exactly one connection with that id is appended |
| Registry.ConnectWithIdCases | assets/js/connections.js:951-997 | the three outcomes of creating a connection with a given id, the last being the same push as a basic connection |
| Registry.ConnectWithIdKeeps | assets/js/connections.js:951-997 | creating with a given id keeps the registry consistent |
| Registry.ConnectWithIdDuplicatesPairs | assets/js/connections.js:951-997 | with a new id, an already connected pair ends up with two connections, because no pair check is made |
| Registry.BindKeepsBindings | assets/js/connections.js:797-843 | binding an interface to a connection the router lists keeps bindings consistent and changes no connection list |
| Registry.Unregister | assets/js/connections.js:1038-1107 | removal splices the first matching connection out of the registry, or changes nothing when it is absent |
| Registry.UnregisterDrops | assets/js/connections.js:1038-1107 | the registry loses exactly that connection and keeps every other |
| Registry.RemoveKeeps | assets/js/connections.js:1038-1107 | removal keeps the registry consistent and ids unique |
| Registry.RemoveRetracts | assets/js/connections.js:1038-1107 | after removal the connection is gone from the registry, from every device's list and from every binding; all other connections stay |
| Registry.Remove | assets/js/connections.js:1038-1107 | removal keeps the registry consistent and retracts the connection everywhere (stated by `Registry.RemoveKeeps` and `Registry.RemoveRetracts`) |
| Registry.DetachAll | assets/js/connections.js:1688-1696 | detaching every connection leaves no lists and no bindings (stated by `Registry.ClearLeavesNothing`) |
| Registry.ClearLeavesNothing | assets/js/connections.js:1688-1696 | clearing leaves every device without connections or bindings |
| Registry.PairKeyJoins | assets/js/connections.js:1001-1036 | two connections have the same sorted-pair key exactly when they join the same two devices |
| Registry.DedupStep | assets/js/connections.js:1001-1036 | each connection is kept when its pair was not seen yet, and is otherwise dropped from the registry and from both ends' lists |
| Registry.DedupPairsUnique | assets/js/connections.js:1001-1036 | after deduplication each unordered pair has at most one connection |
| Registry.DedupCovers | assets/js/connections.js:1001-1036 | every pair connected before keeps a connection, and only existing connections are kept |
| Registry.DedupKeepsDistinct | assets/js/connections.js:1001-1036 | a registry without duplicate pairs is left as it is |
| Registry.DedupIdempotent | assets/js/connections.js:1001-1036 | deduplicating twice drops nothing the second time |
| Registry.DedupLinked | assets/js/connections.js:1001-1036 | the device lists stay derived from the registry, while bindings are left untouched |
| Registry.Dedup | assets/js/connections.js:1001-1036 | unique pairs afterwards, every connected pair kept, distinct registries unchanged, idempotent (stated by `Registry.DedupPairsUnique`, `Registry.DedupCovers`, `Registry.DedupKeepsDistinct` and `Registry.DedupIdempotent`) |
| Registry.Refresh | assets/js/connections.js:1110-1132 | a refreshed connection keeps its ends and interfaces and records the current verdict; unknown ends or an undecided verdict keep it |
| Registry.RefreshKeepsLinks | assets/js/connections.js:1110-1132 | refreshing every connection leaves the topology the decisions read unchanged |
| Registry.PutFound | assets/js/connections.js:1110-1132 | writing back a device as looked up changes nothing |
| Registry.RouterDeviceConnect | assets/js/connections.js:797-843 | refused when the router's interface or the peer cannot accept, and then nothing changes; otherwise it returns the basic connection |
| Registry.RouterDeviceConnectKeeps | assets/js/connections.js:797-843 | wiring a device to a router interface keeps the registry consistent and pairs unique |
| Registry.RouterDeviceConnectUses | assets/js/connections.js:797-843 | the connection made records the router's interface, which is then used and refused to a further request |
| Registry.RouterRouterConnect | assets/js/connections.js:515-578 | a refused interface on either router changes nothing; declining to replace a cloud on a WAN changes nothing and returns nothing |
| Registry.RouterRouterConnectKeeps | assets/js/connections.js:515-578 | wiring two routers keeps the registry consistent and pairs unique |
| Registry.RouterRouterConnectUses | assets/js/connections.js:515-578 | the connection made records each router's chosen interface on its own end |
| Registry.PairWireKeeps | assets/js/connections.js:515-578 | the bindings, WAN addresses and simple routes written after wiring keep the registry consistent and its topology unchanged |
| Registry.PeerAssign | assets/js/connections.js:155-195 | only the router's WAN changes, to `Allocation.PeerWan`, and the wiring is kept (stated by `Registry.PairWireKeeps`) |
| Registry.CloudAssign | assets/js/connections.js:846-882 | only the router's WAN changes, to `Allocation.CloudWan`, and the wiring is kept (stated by `Registry.RouterDeviceConnectKeeps`) |
| Registry.HostStep | assets/js/connections.js:885-930 | the device takes the setting chosen for the interface, and the wiring is kept (stated by `Allocation.HostLandsOnLan` and `Registry.RouterDeviceConnectKeeps`) |
| Registry.SimpleRoutesReachLan | assets/js/connections.js:600-628 | for a router wired on its WAN to a peer's LAN, the peer's LAN becomes routable from it |
| Registry.SimpleRoutes | assets/js/connections.js:600-628 | the WAN side gets a route to the peer LAN, and the wiring is kept (stated by `Registry.SimpleRoutesReachLan` and `Registry.PairWireKeeps`) |
| Connections.ConnectionManager.constructor | assets/js/connections.js:29-34 | the registry starts empty |
| Connections.ConnectionManager.GetActuallyUsedRouterInterfaces | assets/js/connections.js:199-225 | the loop collects exactly the interfaces the router's connections record on its end |
| Connections.ConnectionManager.GetFreeRouterInterfaces | assets/js/connections.js:310-346 | the result is exactly the router's free interfaces |
| Connections.ConnectionManager.GetConnectedDevices | assets/js/connections.js:1591-1612 | the loop returns exactly the neighbours of the device in the registry |
| Connections.ConnectionManager.AreDevicesConnected | assets/js/connections.js:1563-1576 | true exactly when some registered connection joins the two, in either order |
| Connections.ConnectionManager.FindPathBetweenDevices | assets/js/connections.js:1614-1651 | the queue-and-visited loop computes the BFS path whose soundness and completeness are proved in `Paths` |
| Connections.ConnectionManager.CreateBasicConnection | assets/js/connections.js:633-690 | the registry and the devices become those of the basic connection, the returned connection is its result, and the fresh-id supply advances only when a connection is appended |
| Connections.ConnectionManager.CreateConnectionWithId | assets/js/connections.js:951-997 | the state becomes that of creating with the given id, and that id is reserved when it is appended |
| Connections.ConnectionManager.RemoveConnection | assets/js/connections.js:1038-1107 | the state becomes the removal's: registry spliced, lists and bindings retracted |
| Connections.ConnectionManager.ClearAllConnections | assets/js/connections.js:1688-1696 | the registry becomes empty and every connection is detached from the devices |
| Connections.ConnectionManager.GenerateIPInRange | assets/js/connections.js:933-949 | the last-octet scan returns the host address specified by `HostInRange` |
| Connections.ConnectionManager.AssignRouterWanIP | assets/js/connections.js:155-195 | the router's WAN becomes the one chosen against the peer router, nothing else in the registry changes, and the address is returned |
| Connections.ConnectionManager.AssignRouterWanIPForCloud | assets/js/connections.js:846-882 | the router's WAN becomes the one chosen against the cloud, nothing else in the registry changes, and the address is returned |
| Connections.ConnectionManager.UpdateDeviceIPForRouterInterface | assets/js/connections.js:885-930 | the device takes the addressing of the router interface it is wired to, when it has none |
| Connections.ConnectionManager.DoesRouterHaveDeviceOnInterface | assets/js/connections.js:581-597 | the loop answers whether some binding on the interface leads to a device of the kind |
| Connections.ConnectionManager.GetInterfaceForRouterConnection | assets/js/connections.js:106-153 | the loops answer with the bound interface, or else by comparing the WAN with the peer's LAN |
| Connections.ConnectionManager.AddSimpleRoutesForRouterConnection | assets/js/connections.js:600-628 | each router wired on its WAN to the other's LAN gains a route to that LAN, and nothing else changes |
| Connections.ConnectionManager.CreateRouterToDeviceConnectionWithInterface | assets/js/connections.js:797-843 | the state becomes that of wiring a device to the chosen router interface, including the bindings and addressing written |
| Connections.ConnectionManager.CreateRouterToRouterConnectionWithInterfaces | assets/js/connections.js:515-578 | the state becomes that of wiring two routers on the chosen interfaces, with the answers to the two cloud prompts as arguments |
| Connections.ConnectionManager.AutoGenerateRoutesForRouter | assets/js/connections.js:1714-1815 | the routes returned are exactly the missing candidates, appended to the router's table; no other device changes |
| Connections.ConnectionManager.RemoveDuplicateConnections | assets/js/connections.js:1001-1036 | the registry, the device lists and the ids dropped become those of the deduplication |
| Connections.ConnectionManager.UpdateAllConnections | assets/js/connections.js:1110-1132 | every connection is refreshed in place with the verdict on the current topology, which is itself unchanged |
| Connections.PushMissing | assets/js/connections.js:1714-1815 | the loop appends exactly the candidates whose key is missing, so the routes it returns have the properties proved in `Routing` |
| Dns.ConfiguredDNSServer | assets/js/dns.js:59-83 | a server exists exactly when the first DNS address is set and not 0.0.0.0, belongs to a device, and that device can resolve; the server owns that address |
| Dns.CanResolveDNS | assets/js/dns.js:86-88 | DNS servers and routers answer; a router answers from the global records only (stated by `Dns.RouterServerIsExternal` and `Dns.DNSManager.TestDNSQuery`) |
| Dns.Resolve | assets/js/dns.js:91-144 | the cache is filled exactly when a DNS server answers, and every answer has an address; the answer on each path is given by `Dns.CacheAnswersFirst`, `Dns.ResolveWithoutServer`, `Dns.ResolveByExternalServer`, `Dns.ResolveByNonResolver` and `Dns.ResolveByServer` |
| Dns.CacheAnswersFirst | assets/js/dns.js:91-95 | a cached name is answered from the cache before any server is consulted |
| Dns.RepeatedQueryHitsCache | assets/js/dns.js:137-141 | after a server answer fills the cache, the same query returns the same address from the cache |
| Dns.RouterServerIsExternal | assets/js/dns.js:107-114 | a router has no `ip`, so as a server it is treated as external and answers only from the global records without filling the cache |
| Dns.ResolveWithoutServer | assets/js/dns.js:97-105 | with no cache hit, no server given and none configured, there is no answer and the cache is untouched |
| Dns.ResolveByExternalServer | assets/js/dns.js:107-114 | a consulted server that no device owns answers with the truthy global record, labelled with its address, or not at all, and never fills the cache |
| Dns.ResolveByNonResolver | assets/js/dns.js:116-119 | a registered server that is neither a DNS server nor a router gives no answer |
| Dns.ResolveByServer | assets/js/dns.js:121-141 | a registered resolver answers with the truthy global record, or else with the address of the first device carrying the domain, labelled with its name and filling the cache; with neither there is no answer |
| Dns.LexLessTransitive | assets/js/dns.js:211-213 | the domain order used for sorting is transitive |
| Dns.LexLessTotal | assets/js/dns.js:211-213 | any two different domains are ordered |
| Dns.LexLessAsymmetric | assets/js/dns.js:211-213 | no two domains precede each other |
| Dns.LexLessIrreflexive | assets/js/dns.js:211-213 | no domain precedes itself |
| Dns.BeforeTransitive | assets/js/dns.js:209-214 | the display order, by category and then by domain, is transitive |
| Dns.BeforeTotal | assets/js/dns.js:209-214 | entries with different domains are ordered |
| Dns.BeforeAsymmetric | assets/js/dns.js:209-214 | no two entries precede each other |
| Dns.Insert | assets/js/dns.js:188-217 | insertion adds exactly one entry and keeps all others |
| Dns.InsertKeepsSorted | assets/js/dns.js:188-217 | inserting a new domain into a sorted listing keeps it sorted |
| Dns.SortedListingIsUnique | assets/js/dns.js:188-217 | two sorted listings of the same entries are equal, so the display list is determined by the records |
| Dns.Classify | assets/js/dns.js:193-199 | the category each listed record carries (stated by `Dns.DNSManager.RecordsForDisplay`) |
| Dns.DefaultRecords | assets/js/dns.js:41-56 | every built-in record has a configured address |
| Dns.DNSManager.constructor | assets/js/dns.js:28-38 | the records start as the built-in defaults |
| Dns.DNSManager.LoadDNSRecords | assets/js/dns.js:41-56 | loading resets the records to the built-in defaults |
| Dns.DNSManager.LookupDomain | assets/js/dns.js:220-222 | a name resolves exactly when it has a truthy record, and then to that record |
| Dns.DNSManager.AllRecords | assets/js/dns.js:183-185 | the copy answers every lookup as the store does: a name has a truthy entry in it exactly when it resolves, and then to that entry |
| Dns.DNSManager.AddDNSRecord | assets/js/dns.js:147-165 | an invalid address or a blank domain is refused and changes nothing; otherwise the domain maps to the address with all other records kept, and a DNS-server target also gains the local record |
| Dns.DNSManager.RemoveDNSRecord | assets/js/dns.js:168-180 | reports removal exactly when the domain was recorded, drops only it, also from a DNS-server target's records; afterwards the name does not resolve |
| Dns.DNSManager.ClearAllDNSRecords | assets/js/dns.js:234-237 | every record is gone |
| Dns.DNSManager.ClearDeviceDNSCache | assets/js/dns.js:225-231 | a device with a cache has it emptied, and the answer says whether it had one |
| Dns.DNSManager.ResolveDNS | assets/js/dns.js:91-144 | the answer is the resolution's, and the source device's cache gains the name exactly when a server answered |
| Dns.DNSManager.TestDNSQuery | assets/js/dns.js:240-260 | a server that cannot resolve gives no answer and changes nothing; otherwise the answer is the resolution through that server, and the querying device's cache gains the name exactly when that resolution fills it; the id counter never changes |
| Dns.DNSManager.AssignDomainName | assets/js/dns.js:285-303 | a blank domain or a device without an address is refused; otherwise the device takes the name and the record is added exactly when the address is valid; the id counter never changes |
| Dns.DNSManager.RecordsForDisplay | assets/js/dns.js:188-217 | the listing is sorted by category, then domain, has one entry per record, lists each record with its `Local`, `External` or `Custom` category, and lists nothing else |

## Left out

- Drawing, DOM updates, alerts, console output and logs are not modelled. This covers `updateConnectionsVisual` (floating-point geometry), the DOM writes in `removeConnection`, `assignRouterWanIP` and `updateRouterConfig`, and `console.log`.
- `createConnection`, `createRouterToDeviceConnection` and `createRouterToRouterConnection` ask the user with `prompt`. They are modelled only through their `...WithInterface(s)` forms, which take the chosen interface as an argument.
- The two `confirm` answers in `createRouterToRouterConnectionWithInterfaces` are the parameters `go1` and `go2`.
- `determineInterfaceForConnection` is not modelled: it reads an undefined variable and nothing calls it.
- `ConnectionManager.removeDevice` is not modelled: it calls a method the class does not have.
- `addAutoRoutesForRouterConnection` is not modelled as a separate operation. Its effect is covered by `AutoGenerateRoutesForRouter` and by the simple routes added when routers are wired.
- `updateDeviceConfigFromUI`, `addDNSRecordFromUI`, `removeDNSRecordFromUI`, the DOM reading in `assignDomainName`, `visualizeDNSQuery`, `animatePathSegment` and `addLog` are UI code and are not modelled.
- Device placement, dragging and `darkenColor` are not modelled.
- Random and time-based values are parameters.
  - The random host address of a new standard device is the parameter `randomIp`.
  - Connection ids built from `Date.now()` and `Math.random()` come from a fresh-id supply (`nextId`) that only hands out unused numbers.
- The `window.deviceManager` global is an explicit `DeviceManager` argument.
- Devices passed as objects are looked up by id. JavaScript object identity is modelled as value equality: `removeConnection` removes the first connection equal to its argument.
- `network-core.js` is not part of this model. `areInSameNetwork` is taken to be equality of the two networks, and `isValidIP` is a parameter with no assumed properties.
- `Reachability.Decide`: the source's mutual recursion between `canDevicesCommunicateDirectly` and `checkGatewayCommunication` keeps no visited set. The model bounds it with fuel (`Budget`, quadratic in the number of devices), and `None` means undecided. Settled answers are proved to be independent of extra fuel, and a gateway cycle is proved never to settle. That the budget suffices for every input that does settle is not proved.
- `localeCompare` in the display sort is modelled as plain lexicographic order on characters.
- `getNetworkAddress` throws on an address without a mask. This is modelled as `None`.
- Addresses are held parsed, so two spellings of one address that `simpleIPCheck` accepts (such as `010.1.1.1` and `10.1.1.1`) denote the same address. Only the check and its round trip work on strings. This changes two things:
  - `isExternalIP` matches private prefixes on the text, so `010.1.1.1` is external in the source, while the model's `Addressing.IsExternalIP` treats it as the private 10.1.1.1.
  - `getDeviceByIP` and the DNS lookups compare address strings, so there `010.1.1.1` and `10.1.1.1` are different addresses; the model finds either one for the other.
- Registry.DedupLinked: `removeDuplicateConnections` does not delete the dropped connections' `connectionInterfaces` entries. The model keeps that behaviour, so router bindings may name dropped connections afterwards. The lemma therefore states only that the lists stay derived and the bindings are untouched.
- Connections.ConnectionManager.UpdateAllConnections: the source also creates a missing `connections` list on a device. Device lists always exist in the model, so that step has no counterpart.
- Connections.ConnectionManager.UpdateAllConnections: an undecided verdict (a gateway cycle) overflows the call stack in the source. The resulting `RangeError` ends the `forEach`, so later connections keep their old `type` and `canCommunicate`, and `updateConnectionsVisual` is not reached. The model leaves only the undecided connection as it was and still refreshes the later ones.
- Registry.BasicConnect: after an undecided verdict the source has already pushed the connection, as `direct` with `canCommunicate` true, and extended both devices' lists. It then throws a `RangeError` instead of returning. The model leaves the same state but returns the connection, so callers that continue afterwards (binding interfaces, assigning addresses, adding routes) go on in the model where the source stops.
- Registry.ConnectWithId: the same as `Registry.BasicConnect`: after an undecided verdict the push and the list updates stand, and the source throws where the model returns the connection.
- Devices.ApplyStandardConfig: the source calls `addDNSRecord` inside the update. When `isValidIP` rejects the device address, that call throws. This can happen to an address `simpleIPCheck` accepted, such as `1.2.3.4x`, which passes because `parseInt('4x')` is 4. `updateDeviceConfig` then answers `{success: false}`, with the address, mask, gateway, DNS and domain name already written. The model always reports success and hands the record over as a separate request, so this failure outcome has no counterpart.
- Reachability.ShouldUseGateway: the source's default destination mask `'255.255.255.0'` is not modelled; callers pass the mask explicitly.
- Devices.DeviceManager.AssignToLAN2: when the first router's LAN2 address is empty, the source builds the malformed address `.10` from it, stores it on the device and returns true. The model answers false and changes nothing there. It also answers false for a LAN2 address of `'N/A'`, where the source builds `N/A.10`.
- Devices.Lan2Slot: for the same reason, no slot exists in the model when the LAN2 address is not a dotted quad.
- Routing.AutoRoutesProperties: the generator adds no route for an enabled LAN2, as in the code. The `destination` field of a route is always absent, because nothing writes it.
