/**
 * `ConnectionManager`: the connection registry as a class whose methods
 * push and splice `connections`, append to and splice the devices'
 * `connections` lists, write router interface bindings, addresses and
 * routing tables.  Each method is proved to leave exactly the state the
 * step functions of `Registry`, `Allocation` and `Routing` describe, and
 * each query loop to answer what the functions of `Topology`, `Paths` and
 * `Routing` answer.  The device registry is passed explicitly.
 */
module Connections {
  import opened Options
  import opened Addressing
  import opened Devices
  import opened Topology
  import opened Bookkeeping
  import opened Paths
  import opened Reachability
  import opened Routing
  import opened Allocation
  import opened Registry

  class ConnectionManager {
    /** `this.connections` */
    var connections: seq<Connection>
    /** The next id of the fresh-id supply that stands for `'conn_' + Date.now() + ...`. */
    var nextId: ConnId

    /** Every registered id came from the supply. */
    ghost predicate Valid()
      reads this
    {
      forall i :: 0 <= i < |connections| ==> connections[i].id < nextId
    }

    /** The connection registry together with the device registry. */
    function State(dm: DeviceManager): Reg
      reads this, dm
    {
      Reg(connections, dm.devices)
    }

    /** The network the decisions and searches look at. */
    function Snapshot(dm: DeviceManager): Net
      reads this, dm
    {
      Net(Links(connections), dm.devices)
    }

    constructor ()
      ensures Valid() && connections == [] && nextId == 0
    {
      connections := [];
      nextId := 0;
    }

    // -------------------------------------------------------------------
    // Queries

    /** `getActuallyUsedRouterInterfaces(router)` */
    method GetActuallyUsedRouterInterfaces(router: Device) returns (used: set<Iface>)
      ensures used == UsedInterfaces(connections, router.id)
    {
      used := {};
      var i := 0;
      while i < |connections|
        invariant 0 <= i <= |connections|
        invariant used == UsedInterfaces(connections[..i], router.id)
      {
        var conn := connections[i];
        if conn.device1Id == router.id || conn.device2Id == router.id {
          var interfaceUsed: Option<Iface> := None;
          if conn.device1Id == router.id && conn.interface1.Some? {
            interfaceUsed := conn.interface1;
          } else if conn.device2Id == router.id && conn.interface2.Some? {
            interfaceUsed := conn.interface2;
          }
          if interfaceUsed.Some? {
            used := used + {interfaceUsed.value};
          }
        }
        UsedInterfacesStep(connections, i, router.id);
        i := i + 1;
      }
      assert connections[..i] == connections;
    }

    /** `getFreeRouterInterfaces(router)` */
    method GetFreeRouterInterfaces(router: Device) returns (free: seq<Iface>)
      ensures free == FreeInterfaces(connections, router)
    {
      var all := Offered(router);
      var used := GetActuallyUsedRouterInterfaces(router);
      free := Without(all, used);
    }

    /** `getConnectedDevices(device)` */
    method GetConnectedDevices(dm: DeviceManager, device: Device) returns (connected: seq<Device>)
      ensures connected == Neighbors(Snapshot(dm), device)
    {
      var net := Snapshot(dm);
      var cids := device.connections;
      connected := [];
      var i := 0;
      while i < |cids|
        invariant 0 <= i <= |cids|
        invariant connected + NeighborsVia(net, cids[i..], device.id) == NeighborsVia(net, cids, device.id)
      {
        assert cids[i..][1..] == cids[i + 1..];
        var conn := FindLink(net.links, cids[i]);
        if conn.Some? {
          var otherId := Other(conn.value, device.id);
          var otherDevice := FindById(dm.devices, otherId);
          if otherDevice.Some? {
            connected := connected + [otherDevice.value];
          }
        }
        i := i + 1;
      }
      assert cids[i..] == [];
    }

    /** `areDevicesConnected(device1, device2)`: some connection joins the two. */
    method AreDevicesConnected(device1: Device, device2: Device) returns (b: bool)
      ensures b <==> exists i :: 0 <= i < |connections| && Joins(LinkOf(connections[i]), device1.id, device2.id)
    {
      b := FindPair(connections, device1.id, device2.id).Some?;
    }

    /** `findPathBetweenDevices(device1, device2)` */
    method FindPathBetweenDevices(dm: DeviceManager, device1: Device, device2: Device) returns (path: Option<seq<Device>>)
      ensures path == FindPath(Snapshot(dm), device1, device2)
    {
      var net := Snapshot(dm);
      if device1.id == device2.id {
        return Some([device1]);
      }
      var direct := AreDevicesConnected(device1, device2);
      if direct {
        return Some([device1, device2]);
      }
      var target := device2.id;
      var visited := {device1.id};
      var queue := [Entry(device1, [device1])];
      while queue != []
        invariant Bfs(net, target, visited, queue) == Bfs(net, target, {device1.id}, [Entry(device1, [device1])])
        decreases Ids(net.devices) - visited, |queue|
      {
        ghost var v0, q0 := visited, queue;
        var current := queue[0];
        queue := queue[1..];
        var connectedDevices := GetConnectedDevices(dm, current.device);
        var j := 0;
        while j < |connectedDevices|
          invariant 0 <= j <= |connectedDevices|
          invariant Scan(connectedDevices[j..], current.path, target, visited, queue)
                 == Scan(connectedDevices, current.path, target, v0, q0[1..])
        {
          assert connectedDevices[j..][1..] == connectedDevices[j + 1..];
          var neighbor := connectedDevices[j];
          if neighbor.id !in visited {
            visited := visited + {neighbor.id};
            var newPath := current.path + [neighbor];
            if neighbor.id == target {
              return Some(newPath);
            }
            queue := queue + [Entry(neighbor, newPath)];
          }
          j := j + 1;
        }
        assert connectedDevices[j..] == [];
        assert Ids(net.devices) - visited < Ids(net.devices) - v0 || (visited == v0 && queue == q0[1..]) by {
          if visited != v0 {
            var x :| x in visited && x !in v0;
            var n :| n in connectedDevices && n.id == x;
            CanonicalInIds(net.devices, n);
          }
        }
      }
      return None;
    }

    // -------------------------------------------------------------------
    // Creating connections

    /**
     * The new record `{id: cid, device1Id, device2Id, type: 'direct',
     * canCommunicate: true}` is pushed, both ends push its id, and its flags
     * are set from the decision for the two ends.
     */
    method PushConnection(dm: DeviceManager, id1: DeviceId, id2: DeviceId, cid: ConnId) returns (c: Connection)
      requires Valid() && dm.Valid() && Registered(dm.devices, id1) && Registered(dm.devices, id2)
      modifies this, dm
      ensures Valid() && dm.Valid() && dm.deviceCounter == old(dm.deviceCounter)
      ensures nextId == if cid >= old(nextId) then cid + 1 else old(nextId)
      ensures State(dm) == Admit(old(State(dm)), id1, id2, cid) && connections == old(connections) + [c] && c.id == cid
    {
      var g := State(dm);
      var connection := Connection(cid, id1, id2, None, None, Direct, true);
      AttachLink(dm, Link(cid, id1, id2));
      c := Classify(connection, Verdict(Net(Links(g.conns + [connection]), dm.devices), id1, id2));
      Append(c);
    }

    /** Both ends of `l` list its id. */
    method AttachLink(dm: DeviceManager, l: Link)
      requires dm.Valid() && Registered(dm.devices, l.end1) && Registered(dm.devices, l.end2)
      modifies dm
      ensures dm.Valid() && dm.deviceCounter == old(dm.deviceCounter) && dm.devices == Attach(old(dm.devices), l)
    {
      AttachEntries(dm.devices, l);
      dm.devices := Attach(dm.devices, l);
    }

    /** `this.connections.push(c)`, the supply moved past its id. */
    method Append(c: Connection)
      requires Valid()
      modifies this
      ensures Valid() && connections == old(connections) + [c]
      ensures nextId == if c.id >= old(nextId) then c.id + 1 else old(nextId)
    {
      var next := if c.id >= nextId then c.id + 1 else nextId;
      var registered := connections + [c];
      assert forall i :: 0 <= i < |registered| ==> registered[i].id < next;
      connections, nextId := registered, next;
    }

    /**
     * `createBasicConnection(device1, device2)`.  The registry position of
     * the connection returned, `at`, stands for the object reference the
     * source hands back.
     */
    method CreateBasicConnection(dm: DeviceManager, id1: DeviceId, id2: DeviceId)
      returns (connection: Option<Connection>, at: Option<nat>)
      requires Valid() && dm.Valid()
      modifies this, dm
      ensures Valid() && dm.Valid() && dm.deviceCounter == old(dm.deviceCounter)
      ensures var m := BasicConnect(old(State(dm)), id1, id2, old(nextId));
        State(dm) == m.reg && at == m.at && connection == Returned(m)
        && nextId == if m.at == Some(old(|connections|)) then old(nextId) + 1 else old(nextId)
    {
      var g := State(dm);
      if !Accepts(g, id1) || !Accepts(g, id2) {
        return None, None;
      }
      var existing := FindPair(connections, id1, id2);
      if existing.Some? {
        return Some(connections[existing.value]), existing;
      }
      AcceptsRegistered(g, id1);
      AcceptsRegistered(g, id2);
      var c := PushConnection(dm, id1, id2, nextId);
      connection, at := Some(c), Some(|g.conns|);
    }

    /** `createConnectionWithId(device1, device2, connectionId)` */
    method CreateConnectionWithId(dm: DeviceManager, id1: DeviceId, id2: DeviceId, connectionId: ConnId)
      returns (connection: Option<Connection>, at: Option<nat>)
      requires Valid() && dm.Valid()
      modifies this, dm
      ensures Valid() && dm.Valid() && dm.deviceCounter == old(dm.deviceCounter)
      ensures var m := ConnectWithId(old(State(dm)), id1, id2, connectionId);
        State(dm) == m.reg && at == m.at && connection == Returned(m)
      ensures nextId == if at == Some(old(|connections|)) && connectionId >= old(nextId) then connectionId + 1 else old(nextId)
    {
      var g := State(dm);
      ConnectWithIdCases(g, id1, id2, connectionId);
      if !Accepts(g, id1) || !Accepts(g, id2) {
        return None, None;
      }
      var existing := FindConnId(connections, connectionId);
      if existing.Some? {
        return Some(connections[existing.value]), existing;
      }
      var c := PushConnection(dm, id1, id2, connectionId);
      connection, at := Some(c), Some(|g.conns|);
    }

    // -------------------------------------------------------------------
    // Removing connections

    /** `removeConnection(connection)` */
    method RemoveConnection(dm: DeviceManager, connection: Connection) returns (r: Connection)
      requires Valid() && dm.Valid()
      modifies this, dm
      ensures Valid() && dm.Valid() && dm.deviceCounter == old(dm.deviceCounter) && nextId == old(nextId)
      ensures State(dm) == Remove(old(State(dm)), connection) && r == connection
    {
      var l := LinkOf(connection);
      DetachEntries(dm.devices, l);
      dm.devices := DropConnId(dm.devices, connection.device1Id, connection.id);
      dm.devices := DropConnId(dm.devices, connection.device2Id, connection.id);
      dm.devices := DropBinding(dm.devices, connection.device1Id, connection.id);
      dm.devices := DropBinding(dm.devices, connection.device2Id, connection.id);
      var connIndex := FirstWhere(connections, (x: Connection) => x == connection);
      if connIndex.Some? {
        connections := connections[..connIndex.value] + connections[connIndex.value + 1..];
      }
      r := connection;
    }

    /** `clearAllConnections()` */
    method ClearAllConnections(dm: DeviceManager)
      requires Valid() && dm.Valid()
      modifies this, dm
      ensures Valid() && dm.Valid() && dm.deviceCounter == old(dm.deviceCounter) && nextId == old(nextId)
      ensures connections == [] && dm.devices == DetachAll(old(dm.devices), old(connections))
    {
      var connectionsCopy := connections;
      var i := 0;
      while i < |connectionsCopy|
        invariant 0 <= i <= |connectionsCopy|
        invariant Valid() && dm.Valid() && dm.deviceCounter == old(dm.deviceCounter) && nextId == old(nextId)
        invariant connections == connectionsCopy[i..]
        invariant DetachAll(dm.devices, connectionsCopy[i..]) == DetachAll(old(dm.devices), connectionsCopy)
      {
        assert connectionsCopy[i..][1..] == connectionsCopy[i + 1..];
        UnregisterFirst(connections);
        var _ := RemoveConnection(dm, connectionsCopy[i]);
        i := i + 1;
      }
      assert connectionsCopy[i..] == [];
      connections := [];
    }

    // -------------------------------------------------------------------
    // Addresses handed out on connection

    /**
     * The fields of the registered device `e.id` other than its kind and
     * its wiring written in place, as `e` has them.
     */
    method Rewrite(dm: DeviceManager, e: Device)
      requires dm.Valid() && FindById(dm.devices, e.id).Some?
      requires var d := FindById(dm.devices, e.id).value;
        d.kind == e.kind && d.connections == e.connections && d.connectionInterfaces == e.connectionInterfaces
      modifies dm
      ensures dm.Valid() && dm.deviceCounter == old(dm.deviceCounter)
      ensures dm.devices == Put(old(dm.devices), e) && SameWiring(old(dm.devices), dm.devices)
    {
      PutWiring(dm.devices, e);
      dm.devices := Put(dm.devices, e);
    }

    /** `generateIPInRange(baseIP, startFrom)` */
    method GenerateIPInRange(dm: DeviceManager, base: Addr, start: Octet) returns (ip: Addr)
      ensures ip == HostInRange(dm.devices, base, start)
    {
      if !base.Quad? {
        return FallbackHost;
      }
      var i: nat := start as nat;
      while i < 255
        invariant start as nat <= i <= 255
        invariant FirstFree(dm.devices, base.a, base.b, base.c, i, 255, None)
               == FirstFree(dm.devices, base.a, base.b, base.c, start as nat, 255, None)
        decreases 255 - i
      {
        var potential := Quad(base.a, base.b, base.c, i as Octet);
        if FindByIP(dm.devices, potential).None? {
          return potential;
        }
        i := i + 1;
      }
      ip := Quad(base.a, base.b, base.c, start);
    }

    /**
     * `assignRouterWanIP(router, otherRouter)` on the registered routers
     * `rid` and `oid`; the address the router's WAN ends up with.
     */
    method AssignRouterWanIP(dm: DeviceManager, rid: DeviceId, oid: DeviceId) returns (ip: Addr)
      requires dm.Valid() && FindById(dm.devices, rid).Some? && FindById(dm.devices, oid).Some?
      modifies dm
      ensures dm.Valid() && dm.deviceCounter == old(dm.deviceCounter)
      ensures var router, other := FindById(old(dm.devices), rid).value, FindById(old(dm.devices), oid).value;
        dm.devices == PeerAssign(old(dm.devices), router, other) && ip == PeerWan(old(dm.devices), router, other).ip
      ensures SameWiring(old(dm.devices), dm.devices)
    {
      var devs := dm.devices;
      var router, other := FindById(devs, rid).value, FindById(devs, oid).value;
      var wan := router.interfaces.wan;
      if Configured(wan.ip) {
        PutFound(devs, rid);
        return wan.ip;
      }
      var lan := other.interfaces.lan;
      if Configured(lan.ip) {
        var i: nat := 2;
        while i < 255
          invariant 2 <= i <= 255 && dm.devices == devs
          invariant FirstFree(devs, lan.ip.a, lan.ip.b, lan.ip.c, i, 255, Some(rid))
                 == FirstFree(devs, lan.ip.a, lan.ip.b, lan.ip.c, 2, 255, Some(rid))
          decreases 255 - i
        {
          var potential := Quad(lan.ip.a, lan.ip.b, lan.ip.c, i as Octet);
          var existing := FindByIP(devs, potential);
          if existing.None? || existing.value.id == rid {
            var e := WithWan(router, SetWan(wan, potential, MaskOr24(lan.subnetMask), lan.ip));
            Rewrite(dm, e);
            return potential;
          }
          i := i + 1;
        }
      }
      var e := WithWan(router, SetWan(wan, FallbackWan.ip, FallbackWan.subnetMask, FallbackWan.gateway));
      Rewrite(dm, e);
      ip := FallbackWan.ip;
    }

    /**
     * `assignRouterWanIPForCloud(router, cloudDevice)` on the registered
     * router `rid` and cloud `cid`; the address the router's WAN ends up with.
     */
    method AssignRouterWanIPForCloud(dm: DeviceManager, rid: DeviceId, cid: DeviceId) returns (ip: Addr)
      requires dm.Valid() && FindById(dm.devices, rid).Some? && FindById(dm.devices, cid).Some?
      modifies dm
      ensures dm.Valid() && dm.deviceCounter == old(dm.deviceCounter)
      ensures var router, cloud := FindById(old(dm.devices), rid).value, FindById(old(dm.devices), cid).value;
        dm.devices == CloudAssign(old(dm.devices), router, cloud) && ip == CloudWan(old(dm.devices), router, cloud).ip
      ensures SameWiring(old(dm.devices), dm.devices)
    {
      var devs := dm.devices;
      var router, cloud := FindById(devs, rid).value, FindById(devs, cid).value;
      var wan := router.interfaces.wan;
      if Configured(cloud.ip) {
        var i: nat := 2;
        while i < 254
          invariant 2 <= i <= 254 && dm.devices == devs
          invariant FirstFree(devs, cloud.ip.a, cloud.ip.b, cloud.ip.c, i, 254, Some(rid))
                 == FirstFree(devs, cloud.ip.a, cloud.ip.b, cloud.ip.c, 2, 254, Some(rid))
          decreases 254 - i
        {
          var potential := Quad(cloud.ip.a, cloud.ip.b, cloud.ip.c, i as Octet);
          var existing := FindByIP(devs, potential);
          if existing.None? || existing.value.id == rid {
            var e := WithWan(router, SetWan(wan, potential, Mask24, cloud.ip));
            Rewrite(dm, e);
            return potential;
          }
          i := i + 1;
        }
      }
      var e := WithWan(router, SetWan(wan, FallbackWan.ip, FallbackWan.subnetMask, FallbackWan.gateway));
      Rewrite(dm, e);
      ip := FallbackWan.ip;
    }

    /**
     * `updateDeviceIPForRouterInterface(device, router, interfaceType)` on
     * the registered devices `did` and `rid`.
     */
    method UpdateDeviceIPForRouterInterface(dm: DeviceManager, did: DeviceId, rid: DeviceId, f: Iface)
      requires dm.Valid() && FindById(dm.devices, did).Some? && FindById(dm.devices, rid).Some?
      modifies dm
      ensures dm.Valid() && dm.deviceCounter == old(dm.deviceCounter)
      ensures dm.devices == HostStep(old(dm.devices), did, rid, f)
    {
      var devs := dm.devices;
      var device, router := FindById(devs, did).value, FindById(devs, rid).value;
      if Configured(device.ip) {
        return;
      }
      var setting: Option<HostSetting> := None;
      match f {
      case Lan =>
        var lan := router.interfaces.lan;
        var ip := GenerateIPInRange(dm, lan.ip, 10);
        setting := Some(HostSetting(ip, lan.ip, lan.subnetMask));
      case Lan2 =>
        var lan2 := router.interfaces.lan2;
        if router.interfaces.lan2Enabled {
          var ip := GenerateIPInRange(dm, lan2.ip, 10);
          setting := Some(HostSetting(ip, lan2.ip, lan2.subnetMask));
        }
      case Wan =>
        var wan := router.interfaces.wan;
        if Present(wan.ip) {
          var ip := GenerateIPInRange(dm, wan.ip, 10);
          setting := Some(HostSetting(ip, if Truthy(wan.gateway) then wan.gateway else wan.ip, wan.subnetMask));
        }
      }
      assert setting == HostSettingFor(devs, device, router, f);
      assert HostStep(devs, did, rid, f) == if setting.Some? then Put(devs, Apply(device, setting.value)) else devs;
      if setting.Some? {
        var e := Apply(device, setting.value);
        Rewrite(dm, e);
      }
    }

    // -------------------------------------------------------------------
    // Router interfaces and routes

    /** `doesRouterHaveDeviceOnInterface(router, interfaceType, deviceType)` */
    method DoesRouterHaveDeviceOnInterface(dm: DeviceManager, router: Device, f: Iface, kind: Kind) returns (b: bool)
      ensures b == HasDeviceOnInterface(Links(connections), dm.devices, router.id, router.connectionInterfaces, f, kind)
    {
      var links := Links(connections);
      var bs := router.connectionInterfaces;
      var i := 0;
      while i < |bs|
        invariant 0 <= i <= |bs|
        invariant HasDeviceOnInterface(links, dm.devices, router.id, bs[i..], f, kind)
               == HasDeviceOnInterface(links, dm.devices, router.id, bs, f, kind)
      {
        assert bs[i..][0] == bs[i] && bs[i..][1..] == bs[i + 1..];
        if bs[i].iface == f {
          var conn := FindConn(links, bs[i].conn);
          if conn.Some? {
            var otherDevice := FindById(dm.devices, FarEnd(conn.value, router.id));
            if otherDevice.Some? && otherDevice.value.kind == kind {
              return true;
            }
          }
        }
        i := i + 1;
      }
      assert bs[i..] == [];
      b := false;
    }

    /** `getInterfaceForRouterConnection(router, otherRouter)` */
    method GetInterfaceForRouterConnection(router: Device, other: Device) returns (f: Iface)
      ensures f == InterfaceForRouterConnection(Links(connections), router, other)
    {
      var links := Links(connections);
      var bs := router.connectionInterfaces;
      var i := 0;
      while i < |bs|
        invariant 0 <= i <= |bs|
        invariant forall k :: 0 <= k < i ==> !BindsTo(links, router.id, bs[k], other.id)
      {
        var conn := FindConn(links, bs[i].conn);
        if conn.Some? && FarEnd(conn.value, router.id) == other.id {
          assert BindsTo(links, router.id, bs[i], other.id);
          return bs[i].iface;
        }
        i := i + 1;
      }
      if WanOnLanOf(router, other) {
        return Wan;
      }
      if WanOnLanOf(other, router) {
        return Lan;
      }
      f := Lan;
    }

    /**
     * `addSimpleRoutesForRouterConnection(router1, router2, interface1,
     * interface2)` on the registered routers `r1` and `r2`.
     */
    method AddSimpleRoutesForRouterConnection(dm: DeviceManager, r1: DeviceId, r2: DeviceId, i1: Iface, i2: Iface)
      requires dm.Valid() && FindById(dm.devices, r1).Some? && FindById(dm.devices, r2).Some?
      modifies dm
      ensures dm.Valid() && dm.deviceCounter == old(dm.deviceCounter)
      ensures dm.devices == SimpleRoutes(old(dm.devices), r1, r2, i1, i2)
    {
      var router1, router2 := FindById(dm.devices, r1).value, FindById(dm.devices, r2).value;
      if i1 == Lan && i2 == Wan {
        Rewrite(dm, router2.(routingTable := router2.routingTable + [LanRouteVia(router1, router2)]));
      }
      if i1 == Wan && i2 == Lan {
        Rewrite(dm, router1.(routingTable := router1.routingTable + [LanRouteVia(router2, router1)]));
      }
    }

    // -------------------------------------------------------------------
    // Connections with a router interface

    /** `router.connectionInterfaces[cid] = f` on the registered device `rid`. */
    method BindInterface(dm: DeviceManager, rid: DeviceId, cid: ConnId, f: Iface)
      requires dm.Valid()
      modifies dm
      ensures dm.Valid() && dm.deviceCounter == old(dm.deviceCounter)
      ensures dm.devices == BindOn(old(dm.devices), rid, cid, f) && SameIds(old(dm.devices), dm.devices)
    {
      BindOnIds(dm.devices, rid, cid, f);
      dm.devices := BindOn(dm.devices, rid, cid, f);
    }

    /** The record at `k` rewritten in place to `rec`, which keeps its id. */
    method Mark(k: nat, rec: Connection)
      requires Valid() && k < |connections| && rec.id == connections[k].id
      modifies this
      ensures Valid() && nextId == old(nextId) && connections == old(connections)[k := rec]
    {
      connections := connections[k := rec];
    }

    /**
     * `createRouterToDeviceConnectionWithInterface(router, otherDevice,
     * interfaceType)` for the devices with ids `rid` and `oid`.
     */
    method CreateRouterToDeviceConnectionWithInterface(dm: DeviceManager, rid: DeviceId, oid: DeviceId, f: Iface)
      returns (connection: Option<Connection>)
      requires Valid() && dm.Valid()
      modifies this, dm
      ensures Valid() && dm.Valid() && dm.deviceCounter == old(dm.deviceCounter)
      ensures var m := RouterDeviceConnect(old(State(dm)), rid, oid, f, old(nextId));
        State(dm) == m.reg && connection == Returned(m)
        && nextId == if m.at == Some(old(|connections|)) then old(nextId) + 1 else old(nextId)
    {
      var g := State(dm);
      if !CanAccept(connections, FindById(dm.devices, rid), Some(f)) || !CanAccept(connections, FindById(dm.devices, oid), None) {
        return None;
      }
      BasicConnectIds(g, rid, oid, nextId);
      var c, at := CreateBasicConnection(dm, rid, oid);
      if at.None? {
        return None;
      }
      SameIdsKeep(g.devices, dm.devices, rid);
      SameIdsKeep(g.devices, dm.devices, oid);
      WireToDevice(dm, at.value, rid, oid, f);
      connection := Some(connections[at.value]);
    }

    /**
     * The steps of `createRouterToDeviceConnectionWithInterface` once the
     * basic create has returned the connection at `k`: the router binds
     * it to `f`, the record notes `f` on the router's side, a WAN wired to
     * a cloud takes an address when it has none, and the device takes its
     * addressing from the interface.
     */
    method WireToDevice(dm: DeviceManager, k: nat, rid: DeviceId, oid: DeviceId, f: Iface)
      requires Valid() && dm.Valid() && k < |connections|
      requires FindById(dm.devices, rid).Some? && FindById(dm.devices, oid).Some?
      modifies this, dm
      ensures Valid() && dm.Valid() && dm.deviceCounter == old(dm.deviceCounter) && nextId == old(nextId)
      ensures var w := Wire(old(State(dm)), k, MarkInterface(old(connections[k]), rid, f), rid, f);
        State(dm) == Reg(w.conns, HostStep(CloudStep(w.devices, rid, oid, f), oid, rid, f))
    {
      var before := dm.devices;
      BindInterface(dm, rid, connections[k].id, f);
      var bound := dm.devices;
      SameIdsKeep(before, bound, rid);
      SameIdsKeep(before, bound, oid);
      Mark(k, MarkInterface(connections[k], rid, f));
      WanFromCloud(dm, rid, oid, f);
      SameIdsKeep(bound, dm.devices, rid);
      SameIdsKeep(bound, dm.devices, oid);
      UpdateDeviceIPForRouterInterface(dm, oid, rid, f);
    }

    /** The router `rid` wired on its WAN to the cloud `oid`: a WAN without address takes one from the cloud. */
    method WanFromCloud(dm: DeviceManager, rid: DeviceId, oid: DeviceId, f: Iface)
      requires dm.Valid() && FindById(dm.devices, rid).Some? && FindById(dm.devices, oid).Some?
      modifies dm
      ensures dm.Valid() && dm.deviceCounter == old(dm.deviceCounter)
      ensures dm.devices == CloudStep(old(dm.devices), rid, oid, f) && SameIds(old(dm.devices), dm.devices)
    {
      var router, other := FindById(dm.devices, rid).value, FindById(dm.devices, oid).value;
      if f == Wan && other.kind == Cloud && !router.interfaces.wan.ip.Quad? {
        var _ := AssignRouterWanIPForCloud(dm, rid, oid);
      }
    }

    /**
     * `createRouterToRouterConnectionWithInterfaces(router1, router2,
     * interface1, interface2)` for the devices with ids `r1` and `r2`;
     * `go1` and `go2` are the answers to the confirmation asked when the
     * requested WAN of `r1` or `r2` already leads to a cloud.
     */
    method CreateRouterToRouterConnectionWithInterfaces(dm: DeviceManager, r1: DeviceId, r2: DeviceId,
                                                         i1: Iface, i2: Iface, go1: bool, go2: bool)
      returns (connection: Option<Connection>)
      requires Valid() && dm.Valid()
      modifies this, dm
      ensures Valid() && dm.Valid() && dm.deviceCounter == old(dm.deviceCounter)
      ensures var m := RouterRouterConnect(old(State(dm)), r1, r2, i1, i2, go1, go2, old(nextId));
        State(dm) == m.reg && connection == Returned(m)
        && nextId == if m.at == Some(old(|connections|)) then old(nextId) + 1 else old(nextId)
    {
      var admitted := MayConnectRouters(dm, r1, r2, i1, i2, go1, go2);
      if !admitted {
        return None;
      }
      connection := ConnectRouters(dm, r1, r2, i1, i2);
    }

    /** The refusals of `createRouterToRouterConnectionWithInterfaces`, in its order. */
    method MayConnectRouters(dm: DeviceManager, r1: DeviceId, r2: DeviceId, i1: Iface, i2: Iface, go1: bool, go2: bool)
      returns (admitted: bool)
      ensures admitted == PairAdmits(State(dm), r1, r2, i1, i2, go1, go2)
      ensures admitted ==> FindById(dm.devices, r1).Some? && FindById(dm.devices, r2).Some?
    {
      var router1, router2 := FindById(dm.devices, r1), FindById(dm.devices, r2);
      if !CanAccept(connections, router1, Some(i1)) || !CanAccept(connections, router2, Some(i2)) {
        return false;
      }
      if i1 == Wan {
        var hasCloudOnWan1 := DoesRouterHaveDeviceOnInterface(dm, router1.value, Wan, Cloud);
        if hasCloudOnWan1 && !go1 {
          return false;
        }
      }
      if i2 == Wan {
        var hasCloudOnWan2 := DoesRouterHaveDeviceOnInterface(dm, router2.value, Wan, Cloud);
        if hasCloudOnWan2 && !go2 {
          return false;
        }
      }
      admitted := true;
    }

    /** The basic create between two registered routers, then the router-to-router wiring. */
    method ConnectRouters(dm: DeviceManager, r1: DeviceId, r2: DeviceId, i1: Iface, i2: Iface)
      returns (connection: Option<Connection>)
      requires Valid() && dm.Valid() && FindById(dm.devices, r1).Some? && FindById(dm.devices, r2).Some?
      modifies this, dm
      ensures Valid() && dm.Valid() && dm.deviceCounter == old(dm.deviceCounter)
      ensures var m := PairWire(BasicConnect(old(State(dm)), r1, r2, old(nextId)), r1, r2, i1, i2);
        State(dm) == m.reg && connection == Returned(m)
        && nextId == if m.at == Some(old(|connections|)) then old(nextId) + 1 else old(nextId)
    {
      var g := State(dm);
      BasicConnectIds(g, r1, r2, nextId);
      var c, at := CreateBasicConnection(dm, r1, r2);
      if at.None? {
        return None;
      }
      SameIdsKeep(g.devices, dm.devices, r1);
      SameIdsKeep(g.devices, dm.devices, r2);
      WirePair(dm, at.value, r1, r2, i1, i2);
      connection := Some(connections[at.value]);
    }

    /**
     * The steps of `createRouterToRouterConnectionWithInterfaces` once the
     * basic create has returned the connection at `k`: both routers bind
     * it, the record notes `i1` and `i2`, a router wired on a WAN without
     * address takes one from the other's LAN, and the LAN/WAN routes are
     * added.
     */
    method WirePair(dm: DeviceManager, k: nat, r1: DeviceId, r2: DeviceId, i1: Iface, i2: Iface)
      requires Valid() && dm.Valid() && k < |connections|
      requires FindById(dm.devices, r1).Some? && FindById(dm.devices, r2).Some?
      modifies this, dm
      ensures Valid() && dm.Valid() && dm.deviceCounter == old(dm.deviceCounter) && nextId == old(nextId)
      ensures State(dm) == PairWire(Made(Some(k), old(State(dm))), r1, r2, i1, i2).reg
      ensures |connections| == old(|connections|)
    {
      var g := State(dm);
      BindPair(dm, k, r1, r2, i1, i2);
      SameIdsKeep(g.devices, dm.devices, r1);
      SameIdsKeep(g.devices, dm.devices, r2);
      var b := State(dm);
      PeerAddresses(dm, r1, r2, i1, i2);
      PairWireSteps(g, k, r1, r2, i1, i2, b, dm.devices);
    }

    /** Both routers bind the connection at `k`, and its record notes `i1` and `i2`. */
    method BindPair(dm: DeviceManager, k: nat, r1: DeviceId, r2: DeviceId, i1: Iface, i2: Iface)
      requires Valid() && dm.Valid() && k < |connections|
      modifies this, dm
      ensures Valid() && dm.Valid() && dm.deviceCounter == old(dm.deviceCounter) && nextId == old(nextId)
      ensures SameIds(old(dm.devices), dm.devices) && |connections| == old(|connections|)
      ensures var g := old(State(dm));
        var w1 := Wire(g, k, g.conns[k].(interface1 := Some(i1), interface2 := Some(i2)), r1, i1);
        State(dm) == Wire(w1, k, w1.conns[k], r2, i2)
    {
      var before := dm.devices;
      var id := connections[k].id;
      BindInterface(dm, r1, id, i1);
      var mid := dm.devices;
      BindInterface(dm, r2, id, i2);
      BindOnIds(before, r1, id, i1);
      var rec := connections[k].(interface1 := Some(i1), interface2 := Some(i2));
      Mark(k, rec);
      assert connections[k := connections[k]] == connections;
    }

    /**
     * Each router wired on its WAN with no WAN address takes one from the
     * other's LAN, `r1` first, and the LAN/WAN routes are added.
     */
    method PeerAddresses(dm: DeviceManager, r1: DeviceId, r2: DeviceId, i1: Iface, i2: Iface)
      requires dm.Valid() && FindById(dm.devices, r1).Some? && FindById(dm.devices, r2).Some?
      modifies dm
      ensures dm.Valid() && dm.deviceCounter == old(dm.deviceCounter)
      ensures dm.devices == SimpleRoutes(WanStep(WanStep(old(dm.devices), r1, r2, i1), r2, r1, i2), r1, r2, i1, i2)
    {
      var devs := dm.devices;
      WanFromPeer(dm, r1, r2, i1);
      SameIdsKeep(devs, dm.devices, r1);
      SameIdsKeep(devs, dm.devices, r2);
      var step1 := dm.devices;
      WanFromPeer(dm, r2, r1, i2);
      SameIdsKeep(step1, dm.devices, r1);
      SameIdsKeep(step1, dm.devices, r2);
      AddSimpleRoutesForRouterConnection(dm, r1, r2, i1, i2);
    }

    /** The router `rid` wired on `f`: a WAN without address takes one from the LAN of `oid`. */
    method WanFromPeer(dm: DeviceManager, rid: DeviceId, oid: DeviceId, f: Iface)
      requires dm.Valid() && FindById(dm.devices, rid).Some? && FindById(dm.devices, oid).Some?
      modifies dm
      ensures dm.Valid() && dm.deviceCounter == old(dm.deviceCounter)
      ensures dm.devices == WanStep(old(dm.devices), rid, oid, f) && SameIds(old(dm.devices), dm.devices)
    {
      if f == Wan && !FindById(dm.devices, rid).value.interfaces.wan.ip.Quad? {
        var _ := AssignRouterWanIP(dm, rid, oid);
      }
    }

    /**
     * `autoGenerateRoutesForRouter(router)` for the registered device
     * `rid`: the connected routes of its LAN and WAN, a route to every
     * connected device with an address and a mask, and the default route
     * via the WAN gateway are pushed, each only when the table holds no
     * route with its key; the pushed routes are returned.
     */
    method AutoGenerateRoutesForRouter(dm: DeviceManager, rid: DeviceId) returns (added: seq<Route>)
      requires dm.Valid() && Registered(dm.devices, rid)
      modifies dm
      ensures dm.Valid() && dm.deviceCounter == old(dm.deviceCounter)
      ensures var router := old(dm.devices)[IndexOf(old(dm.devices), rid)];
        added == AutoRoutes(Links(connections), old(dm.devices), router)
        && dm.devices == AfterAutoRoutes(Links(connections), old(dm.devices), rid)
    {
      var devs := dm.devices;
      var i := IndexOf(devs, rid);
      var router := devs[i];
      LookupUnique(devs, i);
      if router.kind != Router {
        assert router.routingTable + [] == router.routingTable;
        assert devs[i := WithRoutes(router, [])] == devs;
        return [];
      }
      var peers := CollectConnectedDevices(dm, rid);
      var cands := LocalRoutes(router) + PeerRoutes(router, peers) + DefaultRoute(router);
      added := PushMissing(router.routingTable, cands);
      Rewrite(dm, WithRoutes(router, added));
    }

    /** The `connectedDevices` list of `autoGenerateRoutesForRouter`: the far end of each connection of `rid`. */
    method CollectConnectedDevices(dm: DeviceManager, rid: DeviceId) returns (peers: seq<Device>)
      ensures peers == ConnectedDevices(Links(connections), dm.devices, rid)
    {
      var links := Links(connections);
      peers := [];
      var j := 0;
      while j < |connections|
        invariant 0 <= j <= |connections|
        invariant peers + ConnectedDevices(links[j..], dm.devices, rid) == ConnectedDevices(links, dm.devices, rid)
      {
        var conn := connections[j];
        ConnectedDevicesStep(links, dm.devices, rid, j);
        var here: seq<Device> := [];
        if conn.device1Id == rid {
          var device := FindById(dm.devices, conn.device2Id);
          if device.Some? {
            here := [device.value];
          }
        } else if conn.device2Id == rid {
          var device := FindById(dm.devices, conn.device1Id);
          if device.Some? {
            here := [device.value];
          }
        }
        assert here == PeerEntry(links[j], dm.devices, rid);
        assert (peers + here) + ConnectedDevices(links[j + 1..], dm.devices, rid)
            == peers + ConnectedDevices(links[j..], dm.devices, rid);
        peers := peers + here;
        j := j + 1;
      }
    }

    /**
     * `removeDuplicateConnections()`: the first connection of each
     * unordered pair of ends stays; every later one is dropped and spliced
     * out of the connection lists of its ends.  Returns the dropped ids.
     */
    method RemoveDuplicateConnections(dm: DeviceManager) returns (dropped: seq<ConnId>)
      requires Valid() && dm.Valid()
      modifies this, dm
      ensures Valid() && dm.Valid() && dm.deviceCounter == old(dm.deviceCounter) && nextId == old(nextId)
      ensures var r := Dedup(old(connections), {}, [], old(dm.devices), []);
        connections == r.kept && dm.devices == r.devices && dropped == r.dropped
    {
      var copy := connections;
      var seen: set<set<DeviceId>> := {};
      var unique: seq<Connection> := [];
      dropped := [];
      var i := 0;
      while i < |copy|
        invariant 0 <= i <= |copy|
        invariant dm.Valid() && dm.deviceCounter == old(dm.deviceCounter)
        invariant forall k :: 0 <= k < |unique| ==> unique[k].id < nextId
        invariant Dedup(copy[i..], seen, unique, dm.devices, dropped) == Dedup(copy, {}, [], old(dm.devices), [])
        modifies dm
      {
        var connection := copy[i];
        DedupStep(copy, i, seen, unique, dm.devices, dropped);
        if PairKey(connection) !in seen {
          seen := seen + {PairKey(connection)};
          unique := unique + [connection];
        } else {
          dropped := dropped + [connection.id];
          Unlink(dm, LinkOf(connection));
        }
        i := i + 1;
      }
      assert copy[i..] == [];
      connections := unique;
    }

    /** The connection `l` spliced out of the connection lists of both its ends. */
    method Unlink(dm: DeviceManager, l: Link)
      requires dm.Valid()
      modifies dm
      ensures dm.Valid() && dm.deviceCounter == old(dm.deviceCounter)
      ensures dm.devices == Unlist(old(dm.devices), l)
    {
      UnlistEntries(dm.devices, l);
      dm.devices := DropConnId(dm.devices, l.end1, l.id);
      dm.devices := DropConnId(dm.devices, l.end2, l.id);
    }

    /**
     * `updateAllConnections(devices)`: every connection whose two ends are
     * in `devices` has its `type` and `canCommunicate` recomputed on the
     * network as it stands; the topology does not change.
     */
    method UpdateAllConnections(dm: DeviceManager, devices: seq<Device>)
      requires Valid()
      modifies this
      ensures Valid() && nextId == old(nextId) && Snapshot(dm) == old(Snapshot(dm))
      ensures |connections| == old(|connections|)
      ensures forall k :: 0 <= k < |connections| ==> connections[k] == Refresh(old(connections[k]), old(Snapshot(dm)), devices)
    {
      var i := 0;
      while i < |connections|
        invariant 0 <= i <= |connections| == old(|connections|)
        invariant Valid() && nextId == old(nextId) && Snapshot(dm) == old(Snapshot(dm))
        invariant forall k :: 0 <= k < i ==> connections[k] == Refresh(old(connections[k]), old(Snapshot(dm)), devices)
        invariant forall k :: i <= k < |connections| ==> connections[k] == old(connections[k])
        modifies this
      {
        var rec := Refresh(connections[i], Snapshot(dm), devices);
        LinksUpdate(connections, i, rec);
        Mark(i, rec);
        i := i + 1;
      }
    }
  }

  /** One more record of the registry adds at most the interface it occupies on `id`. */
  lemma UsedInterfacesStep(conns: seq<Connection>, i: nat, id: DeviceId)
    requires i < |conns|
    ensures UsedInterfaces(conns[..i + 1], id)
      == UsedInterfaces(conns[..i], id) + (if UsedBy(conns[i], id).Some? then {UsedBy(conns[i], id).value} else {})
  {
    var a, b := conns[..i + 1], conns[..i];
    assert forall j :: 0 <= j < i ==> a[j] == b[j];
    assert a[i] == conns[i];
  }

  /**
   * The candidates pushed one after the other onto `table`, each only when
   * no route of the table as it then stands has its key; the result is
   * what was pushed.
   */
  method PushMissing(table: seq<Route>, cands: seq<Route>) returns (added: seq<Route>)
    ensures added == AppendMissing(table, cands)
  {
    var current := table;
    added := [];
    var i := 0;
    while i < |cands|
      invariant 0 <= i <= |cands|
      invariant current == table + added
      invariant added + AppendMissing(current, cands[i..]) == AppendMissing(table, cands)
    {
      var route := cands[i];
      assert cands[i..][0] == route && cands[i..][1..] == cands[i + 1..];
      if !RouteExists(current, route) {
        current := current + [route];
        added := added + [route];
      }
      i := i + 1;
    }
  }
}
