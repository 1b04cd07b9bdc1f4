/**
 * `getConnectedDevices` and the breadth-first search of
 * `findPathBetweenDevices`, as functions on a network snapshot, with the
 * search's soundness (the path it returns is a walk over connections with
 * no device twice) and completeness (it answers `null` only when no walk
 * reaches the target).
 */
module Paths {
  import opened Options
  import opened Devices
  import opened Topology

  /** The registry's first connection with the given id, as `connections.find`. */
  function FindLink(links: seq<Link>, cid: ConnId): (r: Option<Link>)
    ensures r.Some? ==> r.value in links && r.value.id == cid
    ensures r.None? <==> forall i :: 0 <= i < |links| ==> links[i].id != cid
  {
    match FirstWhere(links, (l: Link) => l.id == cid)
    case None => None
    case Some(i) => Some(links[i])
  }

  /** The end of a connection that is not the device `id`, as the source picks it. */
  function Other(l: Link, id: DeviceId): DeviceId
  {
    if l.end1 == id then l.end2 else l.end1
  }

  /** A device as the registry holds it. */
  predicate Canonical(devs: seq<Device>, d: Device)
  {
    FindById(devs, d.id) == Some(d)
  }

  /**
   * The devices reached through the connection ids `cids` of device `self`:
   * ids without a registered connection, and far ends without a registered
   * device, are skipped.
   */
  function NeighborsVia(net: Net, cids: seq<ConnId>, self: DeviceId): (r: seq<Device>)
    ensures forall n :: n in r ==> Canonical(net.devices, n)
    ensures forall n :: n in r ==> exists k :: 0 <= k < |cids| && Reaches(net, cids[k], self, n)
    decreases |cids|
  {
    if cids == [] then []
    else
      var rest := NeighborsVia(net, cids[1..], self);
      assert forall n :: n in rest ==> exists k :: 0 <= k < |cids| && Reaches(net, cids[k], self, n) by {
        forall n | n in rest ensures exists k :: 0 <= k < |cids| && Reaches(net, cids[k], self, n) {
          var k :| 0 <= k < |cids[1..]| && Reaches(net, cids[1..][k], self, n);
          assert cids[k + 1] == cids[1..][k];
        }
      }
      match FindLink(net.links, cids[0])
      case None => rest
      case Some(l) =>
        match FindById(net.devices, Other(l, self))
        case None => rest
        case Some(n) => [n] + rest
  }

  /** `n` is the far end of the connection with id `cid` as seen from `self`. */
  predicate Reaches(net: Net, cid: ConnId, self: DeviceId, n: Device)
  {
    FindLink(net.links, cid).Some? && FindById(net.devices, Other(FindLink(net.links, cid).value, self)) == Some(n)
  }

  /** `getConnectedDevices(device)`. */
  function Neighbors(net: Net, d: Device): seq<Device>
  {
    NeighborsVia(net, d.connections, d.id)
  }

  /**
   * When device lists agree with the registry, every neighbour of a
   * registered device is joined to it by a registered connection.
   */
  lemma NeighborIsConnected(net: Net, d: Device, n: Device)
    requires Linked(net.links, net.devices) && d in net.devices && n in Neighbors(net, d)
    ensures Connected(net.links, d.id, n.id)
  {
    var k :| 0 <= k < |d.connections| && Reaches(net, d.connections[k], d.id, n);
    var cid := d.connections[k];
    var i :| 0 <= i < |net.devices| && net.devices[i] == d;
    assert cid in Incident(net.links, d.id);
    InIncident(net.links, d.id, cid);
    var j :| 0 <= j < |net.links| && net.links[j].id == cid && Touches(net.links[j], d.id);
    var l := FindLink(net.links, cid).value;
    var m :| 0 <= m < |net.links| && net.links[m] == l;
    assert m == j;
    var e := FindById(net.devices, Other(l, d.id)).value;
    assert Joins(l, d.id, e.id);
  }

  function Ids(devs: seq<Device>): set<DeviceId>
  {
    set i | 0 <= i < |devs| :: devs[i].id
  }

  lemma CanonicalInIds(devs: seq<Device>, d: Device)
    requires Canonical(devs, d)
    ensures d.id in Ids(devs)
  {
    var i :| 0 <= i < |devs| && devs[i] == d && d.id == d.id;
  }

  // ---------------------------------------------------------------------
  // The breadth-first search

  /** A queue entry `{device, path}`. */
  datatype Entry = Entry(device: Device, path: seq<Device>)

  /** The inner `for` loop over the neighbours ends in a path or in a new state. */
  datatype ScanResult = Found(path: seq<Device>) | Continue(visited: set<DeviceId>, queue: seq<Entry>)

  /**
   * One pass over the neighbours of the current entry: visited ones are
   * skipped; a new one is marked visited and either completes the path or
   * joins the queue.
   */
  function Scan(nbrs: seq<Device>, path: seq<Device>, target: DeviceId,
                visited: set<DeviceId>, queue: seq<Entry>): (r: ScanResult)
    ensures r.Continue? ==> visited <= r.visited
    ensures r.Continue? ==> forall v :: v in r.visited && v !in visited ==> exists n :: n in nbrs && n.id == v
    ensures r.Continue? && r.visited == visited ==> r.queue == queue
    decreases |nbrs|
  {
    if nbrs == [] then Continue(visited, queue)
    else
      var n := nbrs[0];
      if n.id in visited then Scan(nbrs[1..], path, target, visited, queue)
      else if n.id == target then Found(path + [n])
      else Scan(nbrs[1..], path, target, visited + {n.id}, queue + [Entry(n, path + [n])])
  }

  /** The `while (queue.length > 0)` loop. */
  function Bfs(net: Net, target: DeviceId, visited: set<DeviceId>, queue: seq<Entry>): Option<seq<Device>>
    decreases Ids(net.devices) - visited, |queue|
  {
    if queue == [] then None
    else
      var cur := queue[0];
      var nbrs := Neighbors(net, cur.device);
      var r := Scan(nbrs, cur.path, target, visited, queue[1..]);
      match r
      case Found(p) => Some(p)
      case Continue(v, q) =>
        assert Ids(net.devices) - v < Ids(net.devices) - visited || (v == visited && q == queue[1..]) by {
          if v != visited {
            var x :| x in v && x !in visited;
            var n :| n in nbrs && n.id == x;
            CanonicalInIds(net.devices, n);
          }
        }
        Bfs(net, target, v, q)
  }

  /**
   * `findPathBetweenDevices(d1, d2)`: `[d1]` for the same device, `[d1, d2]`
   * for a direct connection, otherwise the first path the search finds.
   */
  function FindPath(net: Net, d1: Device, d2: Device): Option<seq<Device>>
  {
    if d1.id == d2.id then Some([d1])
    else if Connected(net.links, d1.id, d2.id) then Some([d1, d2])
    else Bfs(net, d2.id, {d1.id}, [Entry(d1, [d1])])
  }

  // ---------------------------------------------------------------------
  // Soundness

  /** A walk from `start` in which each device is a neighbour of the one before. */
  predicate Walk(net: Net, start: Device, p: seq<Device>)
  {
    |p| >= 1 && p[0] == start && forall k :: 0 <= k < |p| - 1 ==> p[k + 1] in Neighbors(net, p[k])
  }

  predicate NoRepeats(p: seq<Device>)
  {
    forall i, j :: 0 <= i < j < |p| ==> p[i].id != p[j].id
  }

  /** What every queue entry satisfies while the search runs. */
  predicate EntryOk(net: Net, start: Device, visited: set<DeviceId>, e: Entry)
  {
    Walk(net, start, e.path) && NoRepeats(e.path) && e.path[|e.path| - 1] == e.device
    && forall k :: 0 <= k < |e.path| ==> e.path[k].id in visited
  }

  predicate QueueOk(net: Net, start: Device, visited: set<DeviceId>, queue: seq<Entry>)
  {
    forall j :: 0 <= j < |queue| ==> EntryOk(net, start, visited, queue[j])
  }

  lemma EntryOkGrows(net: Net, start: Device, visited: set<DeviceId>, more: set<DeviceId>, e: Entry)
    requires EntryOk(net, start, visited, e) && visited <= more
    ensures EntryOk(net, start, more, e)
  {
  }

  lemma {:induction false} ScanSound(net: Net, start: Device, cur: Device, nbrs: seq<Device>, path: seq<Device>,
                                     target: DeviceId, visited: set<DeviceId>, queue: seq<Entry>)
    requires EntryOk(net, start, visited, Entry(cur, path)) && QueueOk(net, start, visited, queue)
    requires forall n :: n in nbrs ==> n in Neighbors(net, cur)
    ensures match Scan(nbrs, path, target, visited, queue)
            case Found(p) => Walk(net, start, p) && NoRepeats(p) && p[|p| - 1].id == target
            case Continue(v, q) => QueueOk(net, start, v, q)
    decreases |nbrs|
  {
    if nbrs != [] {
      var n := nbrs[0];
      if n.id in visited {
        ScanSound(net, start, cur, nbrs[1..], path, target, visited, queue);
      } else {
        var p := path + [n];
        assert p[|p| - 2] == cur;
        assert Walk(net, start, p);
        if n.id != target {
          var v := visited + {n.id};
          var q := queue + [Entry(n, p)];
          forall j | 0 <= j < |q| ensures EntryOk(net, start, v, q[j]) {
            if j < |queue| {
              EntryOkGrows(net, start, visited, v, queue[j]);
            }
          }
          EntryOkGrows(net, start, visited, v, Entry(cur, path));
          ScanSound(net, start, cur, nbrs[1..], path, target, v, q);
        }
      }
    }
  }

  lemma {:induction false} BfsSound(net: Net, start: Device, target: DeviceId, visited: set<DeviceId>, queue: seq<Entry>)
    requires QueueOk(net, start, visited, queue)
    ensures match Bfs(net, target, visited, queue)
            case Some(p) => Walk(net, start, p) && NoRepeats(p) && p[|p| - 1].id == target
            case None => true
    decreases Ids(net.devices) - visited, |queue|
  {
    if queue != [] {
      var cur := queue[0];
      var nbrs := Neighbors(net, cur.device);
      assert QueueOk(net, start, visited, queue[1..]) by {
        forall j | 0 <= j < |queue[1..]| ensures EntryOk(net, start, visited, queue[1..][j]) {
          assert queue[1..][j] == queue[j + 1];
        }
      }
      ScanSound(net, start, cur.device, nbrs, cur.path, target, visited, queue[1..]);
      match Scan(nbrs, cur.path, target, visited, queue[1..])
      case Found(p) =>
      case Continue(v, q) =>
        assert Ids(net.devices) - v < Ids(net.devices) - visited || (v == visited && q == queue[1..]) by {
          if v != visited {
            var x :| x in v && x !in visited;
            var n :| n in nbrs && n.id == x;
            CanonicalInIds(net.devices, n);
          }
        }
        BfsSound(net, start, target, v, q);
    }
  }

  /**
   * A path the finder returns runs from `d1` to `d2` and visits no device
   * twice; past the two shortcuts each step goes to a neighbour.
   */
  lemma FindPathSound(net: Net, d1: Device, d2: Device)
    requires FindPath(net, d1, d2).Some?
    ensures var p := FindPath(net, d1, d2).value;
      |p| >= 1 && p[0] == d1 && p[|p| - 1].id == d2.id && NoRepeats(p)
    ensures d1.id == d2.id ==> FindPath(net, d1, d2) == Some([d1])
    ensures d1.id != d2.id && Connected(net.links, d1.id, d2.id) ==> FindPath(net, d1, d2) == Some([d1, d2])
    ensures d1.id != d2.id && !Connected(net.links, d1.id, d2.id) ==> Walk(net, d1, FindPath(net, d1, d2).value)
  {
    if d1.id != d2.id && !Connected(net.links, d1.id, d2.id) {
      assert EntryOk(net, d1, {d1.id}, Entry(d1, [d1]));
      BfsSound(net, d1, d2.id, {d1.id}, [Entry(d1, [d1])]);
    }
  }

  /** With the device lists in step with the registry, every step of a returned path is a connection. */
  lemma FindPathStepsAreConnections(net: Net, d1: Device, d2: Device)
    requires Linked(net.links, net.devices) && Canonical(net.devices, d1)
    requires FindPath(net, d1, d2).Some?
    ensures var p := FindPath(net, d1, d2).value;
      forall k :: 0 <= k < |p| - 1 ==> Connected(net.links, p[k].id, p[k + 1].id)
  {
    FindPathSound(net, d1, d2);
    var p := FindPath(net, d1, d2).value;
    if d1.id != d2.id && !Connected(net.links, d1.id, d2.id) {
      forall k | 0 <= k < |p| - 1 ensures Connected(net.links, p[k].id, p[k + 1].id) {
        assert p[k + 1] in Neighbors(net, p[k]);
        assert p[k] in net.devices by {
          if k == 0 {
            var i :| 0 <= i < |net.devices| && net.devices[i] == d1 && d1.id == d1.id;
          } else {
            assert p[k] in Neighbors(net, p[k - 1]);
            var i :| 0 <= i < |net.devices| && net.devices[i] == p[k] && p[k].id == p[k].id;
          }
        }
        NeighborIsConnected(net, p[k], p[k + 1]);
      }
    }
  }

  // ---------------------------------------------------------------------
  // Completeness

  predicate InQueue(queue: seq<Entry>, v: DeviceId)
  {
    exists j :: 0 <= j < |queue| && queue[j].device.id == v
  }

  /** Every neighbour of the registered device `v` has been visited. */
  predicate Closed(net: Net, visited: set<DeviceId>, v: DeviceId)
  {
    FindById(net.devices, v).Some? && forall n :: n in Neighbors(net, FindById(net.devices, v).value) ==> n.id in visited
  }

  /** What the search keeps while it runs, towards completeness. */
  predicate Frontier(net: Net, target: DeviceId, visited: set<DeviceId>, queue: seq<Entry>)
  {
    target !in visited
    && (forall j :: 0 <= j < |queue| ==> Canonical(net.devices, queue[j].device) && queue[j].device.id in visited)
    && (forall v :: v in visited ==> InQueue(queue, v) || Closed(net, visited, v))
  }

  lemma {:induction false} ScanFrontier(net: Net, nbrs: seq<Device>, path: seq<Device>, target: DeviceId,
                                        visited: set<DeviceId>, queue: seq<Entry>)
    requires forall n :: n in nbrs ==> Canonical(net.devices, n)
    requires target !in visited
    requires forall j :: 0 <= j < |queue| ==> Canonical(net.devices, queue[j].device) && queue[j].device.id in visited
    requires Scan(nbrs, path, target, visited, queue).Continue?
    ensures var r := Scan(nbrs, path, target, visited, queue);
      target !in r.visited
      && (forall n :: n in nbrs ==> n.id in r.visited)
      && (forall j :: 0 <= j < |r.queue| ==> Canonical(net.devices, r.queue[j].device) && r.queue[j].device.id in r.visited)
      && (forall v :: v in r.visited && v !in visited ==> InQueue(r.queue, v))
      && (forall v :: InQueue(queue, v) ==> InQueue(r.queue, v))
    decreases |nbrs|
  {
    if nbrs != [] {
      var n := nbrs[0];
      if n.id in visited {
        ScanFrontier(net, nbrs[1..], path, target, visited, queue);
      } else {
        var v := visited + {n.id};
        var q := queue + [Entry(n, path + [n])];
        assert q[|queue|].device.id == n.id;
        forall x | InQueue(queue, x) ensures InQueue(q, x) {
          var j :| 0 <= j < |queue| && queue[j].device.id == x;
          assert q[j] == queue[j];
        }
        ScanFrontier(net, nbrs[1..], path, target, v, q);
      }
    }
  }

  /**
   * When the search gives up, the visited devices form a set closed under
   * neighbours that holds the start and misses the target.
   */
  lemma {:induction false} BfsNoneClosed(net: Net, target: DeviceId, visited: set<DeviceId>, queue: seq<Entry>)
    returns (s: set<DeviceId>)
    requires Frontier(net, target, visited, queue)
    requires Bfs(net, target, visited, queue).None?
    ensures visited <= s && target !in s
    ensures forall v :: v in s ==> Closed(net, s, v)
    decreases Ids(net.devices) - visited, |queue|
  {
    if queue == [] {
      s := visited;
    } else {
      var cur := queue[0];
      var nbrs := Neighbors(net, cur.device);
      var rest := queue[1..];
      assert forall j :: 0 <= j < |rest| ==> rest[j] == queue[j + 1];
      ScanFrontier(net, nbrs, cur.path, target, visited, rest);
      var v := Scan(nbrs, cur.path, target, visited, rest).visited;
      var q := Scan(nbrs, cur.path, target, visited, rest).queue;
      forall x | x in v ensures InQueue(q, x) || Closed(net, v, x) {
        if x !in visited {
        } else if InQueue(queue, x) {
          var j :| 0 <= j < |queue| && queue[j].device.id == x;
          if j == 0 {
            assert FindById(net.devices, x) == Some(cur.device);
          } else {
            assert rest[j - 1].device.id == x;
          }
        } else {
          assert Closed(net, visited, x);
        }
      }
      assert Ids(net.devices) - v < Ids(net.devices) - visited || (v == visited && q == rest) by {
        if v != visited {
          var x :| x in v && x !in visited;
          var n :| n in nbrs && n.id == x;
          CanonicalInIds(net.devices, n);
        }
      }
      s := BfsNoneClosed(net, target, v, q);
    }
  }

  /** Every device of a walk from a registered start lies in a neighbour-closed set holding the start. */
  lemma {:induction false} WalkStaysInClosedSet(net: Net, start: Device, p: seq<Device>, s: set<DeviceId>, k: nat)
    requires Canonical(net.devices, start) && Walk(net, start, p) && start.id in s
    requires forall v {:trigger Closed(net, s, v)} :: v in s ==> Closed(net, s, v)
    requires k < |p|
    ensures p[k].id in s && Canonical(net.devices, p[k])
  {
    if k > 0 {
      WalkStaysInClosedSet(net, start, p, s, k - 1);
      assert p[k] in Neighbors(net, p[k - 1]);
      ClosedStep(net, s, p[k - 1], p[k]);
    }
  }

  /** A neighbour of a registered member of a closed set is a registered member too. */
  lemma ClosedStep(net: Net, s: set<DeviceId>, d: Device, n: Device)
    requires Canonical(net.devices, d) && Closed(net, s, d.id) && n in Neighbors(net, d)
    ensures n.id in s && Canonical(net.devices, n)
  {
  }

  /**
   * `findPathBetweenDevices` answers `null` only when no walk from the
   * registered device `d1` over neighbours reaches `d2`.
   */
  lemma FindPathComplete(net: Net, d1: Device, d2: Device, p: seq<Device>)
    requires Canonical(net.devices, d1)
    requires Walk(net, d1, p) && p[|p| - 1].id == d2.id
    ensures FindPath(net, d1, d2).Some?
  {
    if d1.id != d2.id && !Connected(net.links, d1.id, d2.id) && FindPath(net, d1, d2).None? {
      var queue := [Entry(d1, [d1])];
      assert InQueue(queue, d1.id) by { assert queue[0].device.id == d1.id; }
      assert Frontier(net, d2.id, {d1.id}, queue);
      var s := BfsNoneClosed(net, d2.id, {d1.id}, queue);
      WalkStaysInClosedSet(net, d1, p, s, |p| - 1);
      assert false;
    }
  }
}
