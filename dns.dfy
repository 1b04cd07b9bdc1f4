/**
 * `DNSManager`: the global record store, per-device caches and the records
 * kept on DNS-server devices, the resolution procedure `resolveDNS` and the
 * sorted listing `getAllDNSRecordsForDisplay`.
 */
module Dns {
  import opened Options
  import opened Addressing
  import opened Devices

  /** `canResolveDNS(device)`: DNS servers and routers answer queries. */
  predicate CanResolveDNS(d: Device)
  {
    d.kind == DnsServer || d.kind == Router
  }

  /**
   * `getConfiguredDNSServer(device)`: the device owning the first configured
   * DNS address, provided it can resolve; `null` when the list is empty, its
   * first entry is empty or `'0.0.0.0'`, no device owns it, or the owner is
   * no resolver.
   */
  function ConfiguredDNSServer(d: Device, devs: seq<Device>): (r: Option<Device>)
    ensures r.Some? <==>
      |d.dns| > 0 && d.dns[0] != Unset && d.dns[0] != Zero
      && FindByIP(devs, d.dns[0]).Some? && CanResolveDNS(FindByIP(devs, d.dns[0]).value)
    ensures r.Some? ==> r.value in devs && OwnsAddr(r.value, d.dns[0]) && CanResolveDNS(r.value)
  {
    if |d.dns| == 0 || d.dns[0] == Unset || d.dns[0] == Zero then None
    else
      var owner := FindByIP(devs, d.dns[0]);
      if owner.Some? && CanResolveDNS(owner.value) then owner else None
  }

  datatype Source = FromCache | ExternalDns | FromDnsServer
  /** The `dnsServer` field of a resolution: `'cache'`, the server's address, or its name. */
  datatype ServerLabel = CacheLabel | ServerAddr(addr: Addr) | ServerName(name: string)
  datatype Resolution = Resolution(ip: Addr, source: Source, server: ServerLabel)

  /** The answer of `resolveDNS` and whether it fills the source's cache with it. */
  datatype Resolved = Resolved(answer: Option<Resolution>, fillsCache: bool)

  function CacheHit(src: Device, domain: string): bool
  {
    src.dnsCache.Some? && Recorded(src.dnsCache.value, domain)
  }

  /**
   * `resolveDNS(domain, source, server)`: the source's cache first; then the
   * given server or the configured one.  A server whose own `ip` no device
   * owns (a router keeps its addresses on its interfaces, so every router)
   * is treated as external and answers from the global records alone.
   * Otherwise a resolver answers from the global records, else from a device
   * carrying the domain name, and the answer is cached on the source.
   */
  function Resolve(records: map<string, Addr>, devs: seq<Device>, domain: string, src: Device,
                   server: Option<Device>): (r: Resolved)
    ensures r.fillsCache ==> r.answer.Some? && r.answer.value.source == FromDnsServer && Truthy(r.answer.value.ip)
    ensures r.answer.Some? && r.answer.value.source == FromDnsServer ==> r.fillsCache
    ensures r.answer.Some? ==> Truthy(r.answer.value.ip)
  {
    if CacheHit(src, domain) then
      Resolved(Some(Resolution(src.dnsCache.value[domain], FromCache, CacheLabel)), false)
    else
      var dnsDevice := if server.Some? then server else ConfiguredDNSServer(src, devs);
      if dnsDevice.None? then Resolved(None, false)
      else if FindByIP(devs, dnsDevice.value.ip).None? then
        if Recorded(records, domain)
        then Resolved(Some(Resolution(records[domain], ExternalDns, ServerAddr(dnsDevice.value.ip))), false)
        else Resolved(None, false)
      else if !CanResolveDNS(dnsDevice.value) then Resolved(None, false)
      else
        var resolved :=
          if Recorded(records, domain) then records[domain]
          else
            var target := FindByDomain(devs, domain, records);
            if target.Some? then target.value.ip else Unset;
        if Truthy(resolved)
        then Resolved(Some(Resolution(resolved, FromDnsServer, ServerName(dnsDevice.value.name))), true)
        else Resolved(None, false)
  }

  /** The source device after `resolveDNS` cached `ip` for `domain`. */
  function WithCached(src: Device, domain: string, ip: Addr): Device
  {
    var cache := if src.dnsCache.Some? then src.dnsCache.value else map[];
    src.(dnsCache := Some(cache[domain := ip]))
  }

  /** A cache hit is answered from the cache, whatever server is named. */
  lemma CacheAnswersFirst(records: map<string, Addr>, devs: seq<Device>, domain: string, src: Device,
                          server: Option<Device>)
    requires src.dnsCache.Some? && Recorded(src.dnsCache.value, domain)
    ensures Resolve(records, devs, domain, src, server)
            == Resolved(Some(Resolution(src.dnsCache.value[domain], FromCache, CacheLabel)), false)
  {
  }

  /**
   * After a resolution by a server has filled the cache, the same query
   * from the same device is answered from the cache with the same address,
   * whichever server it names, and changes nothing further.
   */
  lemma {:induction false} RepeatedQueryHitsCache(records: map<string, Addr>, devs: seq<Device>, domain: string,
                                                  src: Device, server: Option<Device>, server2: Option<Device>)
    requires Resolve(records, devs, domain, src, server).fillsCache
    ensures var ip := Resolve(records, devs, domain, src, server).answer.value.ip;
            Resolve(records, devs, domain, WithCached(src, domain, ip), server2)
            == Resolved(Some(Resolution(ip, FromCache, CacheLabel)), false)
  {
    var ip := Resolve(records, devs, domain, src, server).answer.value.ip;
    var src2 := WithCached(src, domain, ip);
    assert CacheHit(src2, domain);
  }

  /**
   * A router named as the server is always treated as external: it answers
   * only from the global records and never fills the cache.
   */
  lemma RouterServerIsExternal(records: map<string, Addr>, devs: seq<Device>, domain: string, src: Device, router: Device)
    requires router.kind == Router && router.ip == Unset
    requires !CacheHit(src, domain)
    ensures var r := Resolve(records, devs, domain, src, Some(router));
      !r.fillsCache
      && r.answer == (if Recorded(records, domain)
                      then Some(Resolution(records[domain], ExternalDns, ServerAddr(Unset))) else None)
  {
  }

  /** The server `resolveDNS` consults: the one given, or else the configured one. */
  predicate Consults(src: Device, devs: seq<Device>, server: Option<Device>, s: Device)
  {
    server == Some(s) || (server.None? && ConfiguredDNSServer(src, devs) == Some(s))
  }

  /** Without a cache hit, with no server given and none configured, there is no answer. */
  lemma ResolveWithoutServer(records: map<string, Addr>, devs: seq<Device>, domain: string, src: Device)
    requires !CacheHit(src, domain) && ConfiguredDNSServer(src, devs).None?
    ensures Resolve(records, devs, domain, src, None) == Resolved(None, false)
  {
  }

  /**
   * A server whose `ip` no device owns answers as external DNS: the global
   * record when there is a truthy one, labelled with the server's address,
   * and nothing otherwise; the cache is never filled.
   */
  lemma ResolveByExternalServer(records: map<string, Addr>, devs: seq<Device>, domain: string, src: Device,
                                server: Option<Device>, s: Device)
    requires !CacheHit(src, domain) && Consults(src, devs, server, s) && FindByIP(devs, s.ip).None?
    ensures var r := Resolve(records, devs, domain, src, server);
      !r.fillsCache
      && (Recorded(records, domain) ==> r.answer == Some(Resolution(records[domain], ExternalDns, ServerAddr(s.ip))))
      && (!Recorded(records, domain) ==> r.answer.None?)
  {
  }

  /** A registered server that can resolve nothing (neither a DNS server nor a router) gives no answer. */
  lemma ResolveByNonResolver(records: map<string, Addr>, devs: seq<Device>, domain: string, src: Device, s: Device)
    requires !CacheHit(src, domain) && FindByIP(devs, s.ip).Some? && !CanResolveDNS(s)
    ensures Resolve(records, devs, domain, src, Some(s)) == Resolved(None, false)
  {
  }

  /**
   * A registered server that can resolve answers with the truthy global
   * record, labelled with the server's name; failing a record, with the
   * address of the first device carrying the domain name, when truthy.
   * Every such answer fills the cache, and there is no answer otherwise.
   */
  lemma ResolveByServer(records: map<string, Addr>, devs: seq<Device>, domain: string, src: Device,
                        server: Option<Device>, s: Device)
    requires !CacheHit(src, domain) && Consults(src, devs, server, s)
    requires FindByIP(devs, s.ip).Some? && CanResolveDNS(s)
    ensures var r := Resolve(records, devs, domain, src, server);
      (Recorded(records, domain) ==>
         r == Resolved(Some(Resolution(records[domain], FromDnsServer, ServerName(s.name))), true))
      && (!Recorded(records, domain) && r.answer.Some? ==>
            r.fillsCache && r.answer.value.source == FromDnsServer && r.answer.value.server == ServerName(s.name)
            && exists i :: 0 <= i < |devs| && devs[i].domainName == Some(domain) && devs[i].ip == r.answer.value.ip
                           && forall j :: 0 <= j < i ==> devs[j].domainName != Some(domain))
      && (!Recorded(records, domain) && r.answer.None? ==>
            !r.fillsCache
            && ((forall i :: 0 <= i < |devs| ==> devs[i].domainName != Some(domain))
                || !Truthy(FindByDomain(devs, domain, records).value.ip)))
  {
  }

  // ---------------------------------------------------------------------
  // Listing for display

  datatype Category = Custom | External | Local

  /** `'Custom' < 'External' < 'Local'` in the comparison of the type names. */
  function Rank(c: Category): nat
  {
    match c
    case Custom => 0
    case External => 1
    case Local => 2
  }

  predicate EndsWith(s: string, suffix: string)
  {
    |suffix| <= |s| && s[|s| - |suffix|..] == suffix
  }

  /** `.local` names are Local; `.com`, `.net`, `.org`, `.gr` External; the rest Custom. */
  function Classify(domain: string): Category
  {
    if EndsWith(domain, ".local") then Local
    else if EndsWith(domain, ".com") || EndsWith(domain, ".net") || EndsWith(domain, ".org") || EndsWith(domain, ".gr")
    then External
    else Custom
  }

  datatype DisplayRecord = DisplayRecord(domain: string, ip: Addr, category: Category)

  /** Lexicographic order of code points, standing in for `localeCompare`. */
  predicate LexLess(a: string, b: string)
  {
    if a == [] then b != []
    else if b == [] then false
    else if a[0] != b[0] then a[0] < b[0]
    else LexLess(a[1..], b[1..])
  }

  lemma {:induction false} LexLessIrreflexive(a: string)
    ensures !LexLess(a, a)
  {
    if a != [] {
      LexLessIrreflexive(a[1..]);
    }
  }

  lemma {:induction false} LexLessTransitive(a: string, b: string, c: string)
    requires LexLess(a, b) && LexLess(b, c)
    ensures LexLess(a, c)
  {
    if a != [] && b != [] && c != [] && a[0] == b[0] && b[0] == c[0] {
      LexLessTransitive(a[1..], b[1..], c[1..]);
    }
  }

  lemma {:induction false} LexLessTotal(a: string, b: string)
    requires a != b
    ensures LexLess(a, b) || LexLess(b, a)
  {
    if a != [] && b != [] && a[0] == b[0] {
      assert a == [a[0]] + a[1..] && b == [b[0]] + b[1..];
      LexLessTotal(a[1..], b[1..]);
    }
  }

  lemma {:induction false} LexLessAsymmetric(a: string, b: string)
    requires LexLess(a, b)
    ensures !LexLess(b, a)
  {
    if LexLess(b, a) {
      LexLessTransitive(a, b, a);
      LexLessIrreflexive(a);
    }
  }

  /** The comparator of the listing: by type, then by domain. */
  predicate Before(x: DisplayRecord, y: DisplayRecord)
  {
    Rank(x.category) < Rank(y.category) || (x.category == y.category && LexLess(x.domain, y.domain))
  }

  lemma BeforeTransitive(x: DisplayRecord, y: DisplayRecord, z: DisplayRecord)
    requires Before(x, y) && Before(y, z)
    ensures Before(x, z)
  {
    if x.category == y.category && y.category == z.category {
      LexLessTransitive(x.domain, y.domain, z.domain);
    }
  }

  lemma BeforeTotal(x: DisplayRecord, y: DisplayRecord)
    requires x.domain != y.domain
    ensures Before(x, y) || Before(y, x)
  {
    LexLessTotal(x.domain, y.domain);
  }

  lemma BeforeAsymmetric(x: DisplayRecord, y: DisplayRecord)
    requires Before(x, y)
    ensures !Before(y, x)
  {
    if x.category == y.category {
      LexLessAsymmetric(x.domain, y.domain);
    }
  }

  predicate SortedForDisplay(s: seq<DisplayRecord>)
  {
    forall i, j :: 0 <= i < j < |s| ==> Before(s[i], s[j])
  }

  /** Inserts an entry before the first entry it sorts before. */
  function Insert(s: seq<DisplayRecord>, e: DisplayRecord): (r: seq<DisplayRecord>)
    ensures |r| == |s| + 1
    ensures forall x :: x in r <==> x in s || x == e
  {
    if s == [] then [e]
    else if Before(e, s[0]) then [e] + s
    else [s[0]] + Insert(s[1..], e)
  }

  lemma {:induction false} InsertKeepsSorted(s: seq<DisplayRecord>, e: DisplayRecord)
    requires SortedForDisplay(s)
    requires forall x :: x in s ==> x.domain != e.domain
    ensures SortedForDisplay(Insert(s, e))
    decreases |s|
  {
    if s != [] {
      if Before(e, s[0]) {
        var r := [e] + s;
        forall i, j | 0 <= i < j < |r| ensures Before(r[i], r[j]) {
          if i == 0 && j > 1 {
            BeforeTransitive(e, s[0], s[j - 1]);
          }
        }
      } else {
        BeforeTotal(e, s[0]);
        InsertKeepsSorted(s[1..], e);
        var t := Insert(s[1..], e);
        var r := [s[0]] + t;
        forall j | 0 <= j < |t| ensures Before(s[0], t[j]) {
          assert t[j] in t;
        }
        forall i, j | 0 <= i < j < |r| ensures Before(r[i], r[j]) {
          if i > 0 {
            assert r[i] == t[i - 1] && r[j] == t[j - 1];
          }
        }
      }
    }
  }

  lemma SameEntriesSameEmptiness(s: seq<DisplayRecord>, t: seq<DisplayRecord>)
    requires forall x :: x in s <==> x in t
    ensures s == [] <==> t == []
  {
    if s != [] {
      assert s[0] in t;
    }
    if t != [] {
      assert t[0] in s;
    }
  }

  /** Two sorted listings with the same entries are the same listing. */
  lemma {:induction false} SortedListingIsUnique(s: seq<DisplayRecord>, t: seq<DisplayRecord>)
    requires SortedForDisplay(s) && SortedForDisplay(t)
    requires forall x :: x in s <==> x in t
    ensures s == t
    decreases |s|
  {
    SameEntriesSameEmptiness(s, t);
    if s != [] {
      if s[0] != t[0] {
        assert t[0] in s && s[0] in t;
        var i :| 0 <= i < |s| && s[i] == t[0];
        var j :| 0 <= j < |t| && t[j] == s[0];
        assert i > 0 && j > 0;
        BeforeAsymmetric(s[0], s[i]);
      }
      forall x ensures x in s[1..] <==> x in t[1..] {
        if x in s[1..] {
          var i :| 0 <= i < |s[1..]| && s[1..][i] == x;
          BeforeAsymmetric(s[0], s[i + 1]);
          assert s[i + 1] == x && x in s;
          var k :| 0 <= k < |t| && t[k] == x;
          assert k != 0;
          assert t[1..][k - 1] == x;
        }
        if x in t[1..] {
          var j :| 0 <= j < |t[1..]| && t[1..][j] == x;
          BeforeAsymmetric(t[0], t[j + 1]);
          assert t[j + 1] == x && x in t;
          var k :| 0 <= k < |s| && s[k] == x;
          assert k != 0;
          assert s[1..][k - 1] == x;
        }
      }
      SortedListingIsUnique(s[1..], t[1..]);
    }
  }

  /** Each listed entry is a record, with its address and category. */
  predicate Lists(records: map<string, Addr>, e: DisplayRecord)
  {
    e.domain in records && e.ip == records[e.domain] && e.category == Classify(e.domain)
  }

  // ---------------------------------------------------------------------
  // The store

  /** The records `loadDNSRecords` installs, each with a configured address. */
  function DefaultRecords(): (r: map<string, Addr>)
    ensures forall domain :: domain in r ==> Configured(r[domain])
  {
    map["google.com" := Quad(8, 8, 8, 8),
        "facebook.com" := Quad(31, 13, 71, 36),
        "github.com" := Quad(140, 82, 121, 4),
        "example.com" := Quad(93, 184, 216, 34),
        "cloud.example.com" := Quad(8, 8, 8, 8),
        "fileserver.local" := Quad(192, 168, 1, 100),
        "webserver.local" := Quad(192, 168, 1, 100),
        "myserver.local" := Quad(192, 168, 1, 100),
        "router.local" := Quad(192, 168, 1, 1),
        "dns.local" := Quad(192, 168, 1, 53),
        "printer.local" := Quad(192, 168, 1, 50),
        "nas.local" := Quad(192, 168, 1, 200),
        "camera.local" := Quad(192, 168, 1, 55)]
  }

  datatype RecordError = InvalidIp | BlankDomain | NoAddress

  class DNSManager {
    var globalDnsRecords: map<string, Addr>
    /** `isValidIP` of the address helpers, which are not part of this model. */
    const isValidIP: Addr -> bool

    constructor (isValidIP: Addr -> bool)
      ensures this.isValidIP == isValidIP && globalDnsRecords == DefaultRecords()
    {
      this.isValidIP := isValidIP;
      globalDnsRecords := DefaultRecords();
    }

    /** `loadDNSRecords()`: back to the built-in records. */
    method LoadDNSRecords()
      modifies this
      ensures globalDnsRecords == DefaultRecords()
    {
      globalDnsRecords := DefaultRecords();
    }

    /** `lookupDomain(domain)`: the record, when it is truthy. */
    function LookupDomain(domain: string): (r: Option<Addr>)
      reads this
      ensures r.Some? <==> Recorded(globalDnsRecords, domain)
      ensures r.Some? ==> r.value == globalDnsRecords[domain]
    {
      if Recorded(globalDnsRecords, domain) then Some(globalDnsRecords[domain]) else None
    }

    /** `getAllDNSRecords()`: a copy of the store, which answers lookups as the store does. */
    function AllRecords(): (r: map<string, Addr>)
      reads this
      ensures forall domain :: LookupDomain(domain).Some? <==> Recorded(r, domain)
      ensures forall domain :: Recorded(r, domain) ==> LookupDomain(domain) == Some(r[domain])
    {
      globalDnsRecords
    }

    /**
     * `addDNSRecord(domain, ip, device)`: rejects an invalid address, then a
     * blank domain; otherwise sets the record and, for a DNS-server device,
     * its local record too.
     */
    method AddDNSRecord(domain: string, ip: Addr, target: Option<DeviceId>, dm: DeviceManager)
      returns (r: Option<RecordError>)
      requires dm.Valid() && (target.Some? ==> Registered(dm.devices, target.value))
      modifies this, dm
      ensures dm.Valid() && dm.deviceCounter == old(dm.deviceCounter)
      ensures !isValidIP(ip) ==> r == Some(InvalidIp)
      ensures isValidIP(ip) && BlankText(domain) ==> r == Some(BlankDomain)
      ensures r.Some? ==> globalDnsRecords == old(globalDnsRecords) && dm.devices == old(dm.devices)
      ensures r.None? <==> isValidIP(ip) && !BlankText(domain)
      ensures r.None? ==> globalDnsRecords == old(globalDnsRecords)[domain := ip]
      ensures r.None? && target.Some? && old(dm.devices)[IndexOf(old(dm.devices), target.value)].kind == DnsServer ==>
        var d := old(dm.devices)[IndexOf(old(dm.devices), target.value)];
        dm.devices == Replace(old(dm.devices), d.(dnsRecords := d.dnsRecords[domain := ip]))
      ensures r.None? && (target.None? || old(dm.devices)[IndexOf(old(dm.devices), target.value)].kind != DnsServer) ==>
        dm.devices == old(dm.devices)
    {
      if !isValidIP(ip) {
        return Some(InvalidIp);
      }
      if BlankText(domain) {
        return Some(BlankDomain);
      }
      globalDnsRecords := globalDnsRecords[domain := ip];
      if target.Some? {
        var i := IndexOf(dm.devices, target.value);
        var d := dm.devices[i];
        if d.kind == DnsServer {
          dm.devices := dm.devices[i := d.(dnsRecords := d.dnsRecords[domain := ip])];
        }
      }
      return None;
    }

    /**
     * `removeDNSRecord(domain, device)`: true when a record was there; it is
     * deleted, and so is the DNS-server device's own record.
     */
    method RemoveDNSRecord(domain: string, target: Option<DeviceId>, dm: DeviceManager) returns (removed: bool)
      requires dm.Valid() && (target.Some? ==> Registered(dm.devices, target.value))
      modifies this, dm
      ensures dm.Valid() && dm.deviceCounter == old(dm.deviceCounter)
      ensures removed <==> old(Recorded(globalDnsRecords, domain))
      ensures removed ==> globalDnsRecords == old(globalDnsRecords) - {domain}
      ensures !removed ==> globalDnsRecords == old(globalDnsRecords) && dm.devices == old(dm.devices)
      ensures LookupDomain(domain).None?
      ensures removed && target.Some? ==>
        var d := old(dm.devices)[IndexOf(old(dm.devices), target.value)];
        dm.devices == (if d.kind == DnsServer && Recorded(d.dnsRecords, domain)
                       then Replace(old(dm.devices), d.(dnsRecords := d.dnsRecords - {domain}))
                       else old(dm.devices))
      ensures removed && target.None? ==> dm.devices == old(dm.devices)
    {
      if !Recorded(globalDnsRecords, domain) {
        return false;
      }
      globalDnsRecords := globalDnsRecords - {domain};
      if target.Some? {
        var i := IndexOf(dm.devices, target.value);
        var d := dm.devices[i];
        if d.kind == DnsServer && Recorded(d.dnsRecords, domain) {
          dm.devices := dm.devices[i := d.(dnsRecords := d.dnsRecords - {domain})];
        }
      }
      return true;
    }

    /** `clearAllDNSRecords()`. */
    method ClearAllDNSRecords() returns (ok: bool)
      modifies this
      ensures ok && globalDnsRecords == map[]
    {
      globalDnsRecords := map[];
      return true;
    }

    /** `clearDeviceDNSCache(device)`: empties an existing cache; false when there is none. */
    method ClearDeviceDNSCache(id: DeviceId, dm: DeviceManager) returns (cleared: bool)
      requires dm.Valid() && Registered(dm.devices, id)
      modifies dm
      ensures dm.Valid() && dm.deviceCounter == old(dm.deviceCounter)
      ensures var d := old(dm.devices)[IndexOf(old(dm.devices), id)];
        cleared == d.dnsCache.Some?
        && dm.devices == (if cleared then Replace(old(dm.devices), d.(dnsCache := Some(map[]))) else old(dm.devices))
    {
      var i := IndexOf(dm.devices, id);
      var d := dm.devices[i];
      if d.dnsCache.Some? {
        dm.devices := dm.devices[i := d.(dnsCache := Some(map[]))];
        return true;
      }
      return false;
    }

    /**
     * `resolveDNS(domain, sourceDevice, dnsServerDevice)`: the answer of
     * `Resolve`, caching it on the source device when a server resolved it.
     */
    method ResolveDNS(domain: string, sourceId: DeviceId, server: Option<Device>, dm: DeviceManager)
      returns (r: Option<Resolution>)
      requires dm.Valid() && Registered(dm.devices, sourceId)
      modifies dm
      ensures dm.Valid() && dm.deviceCounter == old(dm.deviceCounter)
      ensures var src := old(dm.devices)[IndexOf(old(dm.devices), sourceId)];
              var res := Resolve(globalDnsRecords, old(dm.devices), domain, src, server);
              r == res.answer
              && dm.devices == (if res.fillsCache then Replace(old(dm.devices), WithCached(src, domain, r.value.ip))
                                else old(dm.devices))
    {
      var i := IndexOf(dm.devices, sourceId);
      var src := dm.devices[i];
      var res := Resolve(globalDnsRecords, dm.devices, domain, src, server);
      r := res.answer;
      if res.fillsCache {
        dm.devices := dm.devices[i := WithCached(src, domain, r.value.ip)];
      }
    }

    /** `testDNSQuery(from, server, domain)`: refuses a server that cannot resolve. */
    method TestDNSQuery(fromId: DeviceId, server: Device, domain: string, dm: DeviceManager)
      returns (r: Option<Resolution>)
      requires dm.Valid() && Registered(dm.devices, fromId)
      modifies dm
      ensures dm.Valid() && dm.deviceCounter == old(dm.deviceCounter)
      ensures !CanResolveDNS(server) ==> r.None? && dm.devices == old(dm.devices)
      ensures CanResolveDNS(server) ==>
        var src := old(dm.devices)[IndexOf(old(dm.devices), fromId)];
        var res := Resolve(globalDnsRecords, old(dm.devices), domain, src, Some(server));
        r == res.answer
        && dm.devices == (if res.fillsCache then Replace(old(dm.devices), WithCached(src, domain, r.value.ip))
                          else old(dm.devices))
    {
      if !CanResolveDNS(server) {
        return None;
      }
      r := ResolveDNS(domain, fromId, Some(server), dm);
    }

    /**
     * `assignDomainName(device, name)` given the trimmed name: requires a
     * name and a configured device address, sets the domain name, then
     * registers the record (which may still reject the address).
     */
    method AssignDomainName(id: DeviceId, domain: string, dm: DeviceManager) returns (r: Option<RecordError>)
      requires dm.Valid() && Registered(dm.devices, id)
      modifies this, dm
      ensures dm.Valid() && dm.deviceCounter == old(dm.deviceCounter)
      ensures var d := old(dm.devices)[IndexOf(old(dm.devices), id)];
        if domain == "" then r == Some(BlankDomain) && dm.devices == old(dm.devices) && globalDnsRecords == old(globalDnsRecords)
        else if !Configured(d.ip) then r == Some(NoAddress) && dm.devices == old(dm.devices) && globalDnsRecords == old(globalDnsRecords)
        else dm.devices == Replace(old(dm.devices), d.(domainName := Some(domain)))
             && (r.None? <==> isValidIP(d.ip) && !BlankText(domain))
             && globalDnsRecords == (if r.None? then old(globalDnsRecords)[domain := d.ip] else old(globalDnsRecords))
    {
      var i := IndexOf(dm.devices, id);
      var d := dm.devices[i];
      if domain == "" {
        return Some(BlankDomain);
      }
      if !Configured(d.ip) {
        return Some(NoAddress);
      }
      dm.devices := dm.devices[i := d.(domainName := Some(domain))];
      r := AddDNSRecord(domain, d.ip, None, dm);
    }

    /**
     * `getAllDNSRecordsForDisplay()`: one entry per record, with its
     * category, sorted by category and then by domain.
     */
    method RecordsForDisplay() returns (list: seq<DisplayRecord>)
      ensures SortedForDisplay(list)
      ensures |list| == |globalDnsRecords|
      ensures forall e :: e in list ==> Lists(globalDnsRecords, e)
      ensures forall d :: d in globalDnsRecords ==> DisplayRecord(d, globalDnsRecords[d], Classify(d)) in list
    {
      var records := globalDnsRecords;
      var pending := records.Keys;
      list := [];
      while pending != {}
        invariant pending <= records.Keys
        invariant SortedForDisplay(list)
        invariant |list| + |pending| == |records|
        invariant forall e :: e in list ==> Lists(records, e) && e.domain !in pending
        invariant forall d :: d in records && d !in pending ==> DisplayRecord(d, records[d], Classify(d)) in list
        decreases |pending|
      {
        var domain :| domain in pending;
        var e := DisplayRecord(domain, records[domain], Classify(domain));
        InsertKeepsSorted(list, e);
        list := Insert(list, e);
        pending := pending - {domain};
      }
      assert pending == {};
    }
  }
}
