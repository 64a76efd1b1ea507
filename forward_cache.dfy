/** Resolution that records each allocated forward in the map, so that a remote
    address is forwarded at most once and keeps its local address: the behaviour the
    map lookup in resolve is there for. The connection class keeps the code as written
    (no insertion); this module is the corrected definition and its properties. */
module ForwardCache {
  import opened SshTunnel

  /** resolve with the missing insertion: a miss also maps the address to its new port. */
  function ResolveCaching(t: Registry, address: Endpoint, avail: int -> bool): (r: (Registry, Result<Endpoint>))
    ensures r.1.Err? ==> r.0 == t && r.1.error == IllegalState(NoFreePortMessage)
    ensures r.1.Ok? ==> address in r.0.localPortForwards
                        && r.1 == Ok(Localhost(r.0.localPortForwards[address]))
    ensures r.0.startPortRange == t.startPortRange
    ensures |t.portForwarders| <= |r.0.portForwarders| <= |t.portForwarders| + 1
    ensures r.0.portForwarders[..|t.portForwarders|] == t.portForwarders
    ensures address in t.localPortForwards ==> r.0 == t
    ensures r.1 == ResolveStep(t, address, avail).1
    ensures r.0.portForwarders == ResolveStep(t, address, avail).0.portForwarders
    ensures (r.1.Ok? && address !in t.localPortForwards) ==>
              r.0.localPortForwards == t.localPortForwards[address := r.1.value.port]
  {
    if address in t.localPortForwards then
      (t, Ok(Localhost(t.localPortForwards[address])))
    else
      match FirstFreePort(t.startPortRange, avail)
      case Err(e) => (t, Err(e))
      case Ok(p) =>
        (Registry(t.localPortForwards[address := p],
                  t.portForwarders + [Forwarder(address, p, false)],
                  t.startPortRange),
         Ok(Localhost(p)))
  }

  /** The map and the forwarder list agree: every forwarder is recorded under its remote
      address with its port, no address has two forwarders, and every key has one. */
  ghost predicate Consistent(t: Registry)
  {
    var m, fs := t.localPortForwards, t.portForwarders;
    && (forall i :: 0 <= i < |fs| ==> fs[i].remoteAddress in m && m[fs[i].remoteAddress] == fs[i].localPort)
    && (forall i, j :: 0 <= i < j < |fs| ==> fs[i].remoteAddress != fs[j].remoteAddress)
    && (forall a :: a in m ==> exists i :: 0 <= i < |fs| && fs[i].remoteAddress == a)
  }

  /** A fresh connection's registry is consistent. */
  lemma FreshIsConsistent(start: int)
    ensures Consistent(Fresh(start))
  {
  }

  /** Recording a new forward for an unmapped address, in the map and the list, keeps
      the map and the list consistent. */
  lemma RecordKeepsConsistent(t: Registry, address: Endpoint, p: int)
    requires Consistent(t)
    requires address !in t.localPortForwards
    ensures Consistent(Registry(t.localPortForwards[address := p],
                                t.portForwarders + [Forwarder(address, p, false)],
                                t.startPortRange))
  {
    var m, fs, n := t.localPortForwards[address := p], t.portForwarders + [Forwarder(address, p, false)], |t.portForwarders|;
    forall i | 0 <= i < n
      ensures fs[i] == t.portForwarders[i] && fs[i].remoteAddress != address
    {
    }
    forall a | a in m
      ensures exists i :: 0 <= i < |fs| && fs[i].remoteAddress == a
    {
      if a == address {
        assert fs[n].remoteAddress == a;
      } else {
        var i :| 0 <= i < n && t.portForwarders[i].remoteAddress == a;
        assert fs[i].remoteAddress == a;
      }
    }
  }

  /** Caching resolution keeps the map and the list consistent (at most one forwarder
      per remote address). */
  lemma CachingKeepsConsistent(t: Registry, address: Endpoint, avail: int -> bool)
    requires Consistent(t)
    ensures Consistent(ResolveCaching(t, address, avail).0)
  {
    if address !in t.localPortForwards {
      var scan := FirstFreePort(t.startPortRange, avail);
      if scan.Ok? {
        RecordKeepsConsistent(t, address, scan.value);
      }
    }
  }

  /** An address that is mapped keeps its local port across a resolve of any address:
      the local address is stable for the life of the connection. */
  lemma CachingKeepsMappedPorts(t: Registry, address: Endpoint, avail: int -> bool, a: Endpoint)
    requires a in t.localPortForwards
    ensures a in ResolveCaching(t, address, avail).0.localPortForwards
    ensures ResolveCaching(t, address, avail).0.localPortForwards[a] == t.localPortForwards[a]
  {
  }

  /** Once an address has been resolved, resolving it again returns the same local
      address and starts nothing, whatever the probe says. */
  lemma CachingResolveIsStable(t: Registry, address: Endpoint, avail1: int -> bool, avail2: int -> bool)
    requires ResolveCaching(t, address, avail1).1.Ok?
    ensures var (t1, r1) := ResolveCaching(t, address, avail1);
            ResolveCaching(t1, address, avail2) == (t1, r1)
  {
  }

  /** The end-to-end scenario: from a fresh connection scanning from 20000, the same remote
      address twice gets localhost:20000 both times with one forwarder, and a second
      remote address then gets localhost:20001. */
  lemma CachingScenario()
    ensures var a1, a2 := Endpoint("10.0.0.5", 443), Endpoint("10.0.0.6", 443);
            var taken := (p: int) => p != 20000;
            var (t1, r1) := ResolveCaching(Fresh(20000), a1, (p: int) => true);
            var (t2, r2) := ResolveCaching(t1, a1, taken);
            var (t3, r3) := ResolveCaching(t2, a2, taken);
            && r1 == r2 == Ok(Localhost(20000))
            && |t2.portForwarders| == 1
            && r3 == Ok(Localhost(20001))
            && |t3.portForwarders| == 2
  {
  }
}
