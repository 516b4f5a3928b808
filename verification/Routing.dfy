/** From a Host header to a site and to the runtime that serves it: the index of
    the site store and the runtime table of the router, against plain scans of the
    site list. */
module Routing {
  import opened Options
  import opened Strings
  import L = Limiter
  import SL = SiteLimiter
  import opened InFlight

  /** `builds` says whether the site's handler can be built: a static site's
      always can, a proxied one's if its upstreams parse. */
  datatype Site = Site(domain: string, aliases: seq<string>, enabled: bool, builds: bool)

  function AllDomains(s: Site): seq<string>
  {
    [s.domain] + s.aliases
  }

  // ---- the scans ----

  /** The site is enabled, and the host is its domain or one of its aliases,
      whatever the case. */
  predicate Bears(s: Site, host: string)
  {
    s.enabled && (Lower(s.domain) == host || exists a :: a in s.aliases && Lower(a) == host)
  }

  lemma BorneByName(s: Site, host: string)
    requires s.enabled
    ensures Bears(s, host) <==> exists k :: 0 <= k < |AllDomains(s)| && Lower(AllDomains(s)[k]) == host
  {
    assert AllDomains(s)[0] == s.domain;
    if k :| 0 <= k < |AllDomains(s)| && Lower(AllDomains(s)[k]) == host && k > 0 {
      assert AllDomains(s)[k] in s.aliases;
    }
    if a :| a in s.aliases && Lower(a) == host {
      var k :| 0 <= k < |s.aliases| && s.aliases[k] == a;
      assert AllDomains(s)[k + 1] == a;
    }
  }

  /** The router lists a runtime under the names as written. */
  predicate Lists(s: Site, name: string)
  {
    s.enabled && s.builds && (name == s.domain || name in s.aliases)
  }

  /** The last enabled site that bears the host. */
  function LastBearing(sites: seq<Site>, host: string): (i: Option<nat>)
    ensures i.Some? ==> i.value < |sites| && Bears(sites[i.value], host)
    ensures i.Some? ==> forall j :: i.value < j < |sites| ==> !Bears(sites[j], host)
    ensures i.None? ==> forall j :: 0 <= j < |sites| ==> !Bears(sites[j], host)
  {
    if sites == [] then None
    else if Bears(sites[|sites| - 1], host) then Some(|sites| - 1)
    else LastBearing(sites[..|sites| - 1], host)
  }

  function LastListing(sites: seq<Site>, name: string): (i: Option<nat>)
    ensures i.Some? ==> i.value < |sites| && Lists(sites[i.value], name)
    ensures i.Some? ==> forall j :: i.value < j < |sites| ==> !Lists(sites[j], name)
    ensures i.None? ==> forall j :: 0 <= j < |sites| ==> !Lists(sites[j], name)
  {
    if sites == [] then None
    else if Lists(sites[|sites| - 1], name) then Some(|sites| - 1)
    else LastListing(sites[..|sites| - 1], name)
  }

  /** A Host header without what follows its last colon, in lower case. */
  function HostName(header: string): string
  {
    var i := LastIndexOf(header, ':');
    Lower(if i.Some? then header[..i.value] else header)
  }

  /** A header is a host, and a port after a colon where there is one. */
  function Header(host: string, port: Option<string>): string
  {
    match port
    case None => host
    case Some(digits) => host + ":" + digits
  }

  /** The host is found exactly if there is a port, or no colon in the host: an
      address with colons and no port loses its last part. */
  lemma PortIsStripped(host: string, port: Option<string>)
    requires port.Some? ==> ':' !in port.value
    ensures HostName(Header(host, port)) == Lower(host) <==> port.Some? || ':' !in host
  {
    match port {
      case Some(digits) =>
        LastIndexAt(host, ':', digits);
        assert Header(host, port)[..|host|] == host;
      case None =>
        var i := LastIndexOf(host, ':');
        if i.Some? {
          Member(host, i.value);
          assert |HostName(host)| == i.value < |Lower(host)|;
        }
    }
  }

  // ---- the site store ----

  class Store {
    var sites: seq<Site>
    var byDomain: map<string, nat>

    ghost predicate Valid()
      reads this
    {
      forall h :: LastBearing(sites, h) == if h in byDomain then Some(byDomain[h]) else None
    }

    constructor ()
      ensures Valid() && sites == []
    {
      sites, byDomain := [], map[];
    }

    /** Builds the index of the new list, then swaps both in. */
    method Replace(sites: seq<Site>)
      modifies this
      ensures Valid() && this.sites == sites
    {
      var idx: map<string, nat> := map[];
      var i := 0;
      while i < |sites|
        invariant 0 <= i <= |sites|
        invariant forall h :: LastBearing(sites[..i], h) == if h in idx then Some(idx[h]) else None
      {
        assert sites[..i + 1][..i] == sites[..i];
        if sites[i].enabled {
          idx := IndexSite(idx, sites[i], i);
        }
        i := i + 1;
      }
      assert sites[..i] == sites;
      this.sites, byDomain := sites, idx;
    }

    static method IndexSite(was: map<string, nat>, s: Site, i: nat) returns (idx: map<string, nat>)
      requires s.enabled
      ensures forall h :: h in idx <==> h in was || Bears(s, h)
      ensures forall h :: h in idx ==> idx[h] == if Bears(s, h) then i else was[h]
    {
      idx := was;
      var names := AllDomains(s);
      var n := 0;
      while n < |names|
        invariant 0 <= n <= |names|
        invariant forall h :: h in idx <==> h in was || exists k :: 0 <= k < n && Lower(names[k]) == h
        invariant forall h :: h in idx ==>
                  idx[h] == if exists k :: 0 <= k < n && Lower(names[k]) == h then i else was[h]
      {
        idx := idx[Lower(names[n]) := i];
        n := n + 1;
      }
      forall h ensures Bears(s, h) <==> exists k :: 0 <= k < |names| && Lower(names[k]) == h {
        BorneByName(s, h);
      }
    }

    /** The site for a Host header: what a scan for the last enabled site finds. */
    method Lookup(header: string) returns (i: Option<nat>)
      requires Valid()
      ensures i == LastBearing(sites, HostName(header))
    {
      var cut := LastIndexOf(header, ':');
      var host := Lower(if cut.Some? then header[..cut.value] else header);
      i := if host in byDomain then Some(byDomain[host]) else None;
    }
  }

  // ---- the router ----

  datatype Answer = NotFound | Unavailable | Served(site: nat)

  class Router {
    const store: Store
    var runtimes: map<string, nat>

    constructor (store: Store)
      ensures this.store == store && runtimes == map[]
    {
      this.store, runtimes := store, map[];
    }

    /** A name leads to the last site of the list that was built under it. */
    ghost predicate Serves(sites: seq<Site>)
      reads this
    {
      forall name :: LastListing(sites, name) == if name in runtimes then Some(runtimes[name]) else None
    }

    /** Both tables were made from the sites of the store. */
    ghost predicate Valid()
      reads this, store
    {
      store.Valid() && Serves(store.sites)
    }

    /** Builds the runtime of every enabled site that can be built and lists it
        under the site's names as they are written. */
    method Reload(sites: seq<Site>)
      modifies this
      ensures Serves(sites)
    {
      var next: map<string, nat> := map[];
      var i := 0;
      while i < |sites|
        invariant 0 <= i <= |sites|
        invariant forall name :: LastListing(sites[..i], name) == if name in next then Some(next[name]) else None
      {
        assert sites[..i + 1][..i] == sites[..i];
        if sites[i].enabled && sites[i].builds {
          next := ListSite(next, sites[i], i);
        }
        i := i + 1;
      }
      assert sites[..i] == sites;
      runtimes := next;
    }

    static method ListSite(was: map<string, nat>, s: Site, i: nat) returns (next: map<string, nat>)
      ensures forall name :: name in next <==> name in was || name == s.domain || name in s.aliases
      ensures forall name :: name in next ==>
                next[name] == if name == s.domain || name in s.aliases then i else was[name]
    {
      next := was[s.domain := i];
      var n := 0;
      while n < |s.aliases|
        invariant 0 <= n <= |s.aliases|
        invariant forall name :: name in next <==> name in was || name == s.domain || name in s.aliases[..n]
        invariant forall name :: name in next ==>
                  next[name] == if name == s.domain || name in s.aliases[..n] then i else was[name]
      {
        next := next[s.aliases[n] := i];
        n := n + 1;
      }
      assert s.aliases[..n] == s.aliases;
    }

    /** Which runtime serves a Host header. */
    method Route(header: string) returns (a: Answer)
      requires Valid()
      ensures a == Routed(store.sites, header)
    {
      var i := store.Lookup(header);
      if i.None? {
        return NotFound;
      }
      var domain := store.sites[i.value].domain;
      a := if domain in runtimes then Served(runtimes[domain]) else Unavailable;
    }

    /** The limits in front of a runtime: the rate first, then a slot, which is
        given back when the request has been served. */
    static method Guarded(limiter: SL.SiteLimiter, gate: Gate, ip: string, now: real) returns (v: Verdict)
      requires gate.Valid()
      modifies limiter, gate
      ensures gate.Valid() && gate.inFlight == old(gate.inFlight)
      ensures limiter.Cfg() == old(limiter.Cfg())
      ensures limiter.St() == L.Serve(old(limiter.Cfg()), old(limiter.St()), L.Call(ip, now)).0
      ensures v == TooMany <==> L.Serve(old(limiter.Cfg()), old(limiter.St()), L.Call(ip, now)).1 != L.Admitted
      ensures v == Full ==> 0 < gate.maxInFlight <= gate.inFlight
      ensures v == Passed ==> gate.maxInFlight <= 0 || gate.inFlight < gate.maxInFlight
    {
      var ok := limiter.Allow(ip, now);
      if !ok {
        return TooMany;
      }
      var h := gate.Acquire();
      if h == null {
        return Full;
      }
      if gate.maxInFlight > 0 {
        gate.Release(h, |gate.granted| - 1);
      }
      v := Passed;
    }
  }

  datatype Verdict = TooMany | Full | Passed

  /** What the two tables together answer for a list of sites. */
  function Routed(sites: seq<Site>, header: string): Answer
  {
    match LastBearing(sites, HostName(header))
    case None => NotFound
    case Some(i) =>
      match LastListing(sites, sites[i].domain)
      case None => Unavailable
      case Some(j) => Served(j)
  }

  // ---- agreement ----

  /** The site the header names is served by its own runtime, or by none if that
      could not be built. */
  predicate OwnRuntime(sites: seq<Site>, header: string)
  {
    match LastBearing(sites, HostName(header))
    case None => Routed(sites, header) == NotFound
    case Some(i) => Routed(sites, header) == if sites[i].builds then Served(i) else Unavailable
  }

  /** No other site that was built lists the domain of site `i`: none after it, and
      if it was not built itself, none before it either. */
  predicate Undisputed(sites: seq<Site>, i: nat)
    requires i < |sites|
  {
    forall j :: 0 <= j < |sites| && j != i && (i < j || !sites[i].builds) ==> !Lists(sites[j], sites[i].domain)
  }

  /** Exactly then do index and runtimes agree. */
  lemma AgreementExactly(sites: seq<Site>, header: string)
    ensures var i := LastBearing(sites, HostName(header));
            OwnRuntime(sites, header) <==> i.None? || Undisputed(sites, i.value)
  {
    var found := LastBearing(sites, HostName(header));
    if found.Some? {
      var i := found.value;
      assert sites[i].builds ==> Lists(sites[i], sites[i].domain);
    }
  }

  /** No two enabled sites share a name, whatever its case. */
  ghost predicate Distinct(sites: seq<Site>)
  {
    forall i, j, h :: 0 <= i < j < |sites| && Bears(sites[i], h) ==> !Bears(sites[j], h)
  }

  lemma ListedIsBorne(s: Site, name: string)
    ensures Lists(s, name) ==> Bears(s, Lower(name))
  {
  }

  /** With distinct names every header is served by the runtime of its site. */
  lemma DistinctNamesAgree(sites: seq<Site>, header: string)
    requires Distinct(sites)
    ensures OwnRuntime(sites, header)
  {
    AgreementExactly(sites, header);
    var found := LastBearing(sites, HostName(header));
    if found.Some? {
      var i := found.value;
      assert Bears(sites[i], Lower(sites[i].domain));
      forall j | 0 <= j < |sites| && j != i ensures !Lists(sites[j], sites[i].domain) {
        ListedIsBorne(sites[j], sites[i].domain);
      }
    }
  }

  /** Without them it need not be: the second site takes over the first one's
      domain, and with it the requests for the first one's alias. */
  lemma AliasIsTakenOver()
    ensures var sites := [Site("a", ["b"], true, true), Site("c", ["a"], true, true)];
            LastBearing(sites, "b") == Some(0) && Routed(sites, "b") == Served(1)
  {
    var first, second := Site("a", ["b"], true, true), Site("c", ["a"], true, true);
    var sites := [first, second];
    assert HostName("b") == "b";
    assert Lower("b") == "b" && Lower("a") == "a" && Lower("c") == "c";
    assert "b" in first.aliases;
    assert !Bears(second, "b");
    assert Bears(first, "b");
    assert Lists(second, "a");
  }
}
