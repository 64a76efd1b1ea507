/** Properties of the tunnel's port allocation, resolution and teardown, stated over
    the value-level model that the connection's methods are proved against. */
module SshTunnelProperties {
  import opened SshTunnel

  // ---------------------------------------------------------------------------
  // Port allocation

  /** The scan's answer is determined by the probe: two first-fit ports are the same port. */
  lemma FirstFreeIsUnique(start: int, avail: int -> bool, p: int, q: int)
    requires IsFirstFree(start, avail, p) && IsFirstFree(start, avail, q)
    ensures p == q
  {
  }

  /** The scan succeeds exactly when some port in [start, MaxPort) is free; in particular
      it always fails when start >= MaxPort. */
  lemma FirstFreePortSucceedsIff(start: int, avail: int -> bool)
    ensures FirstFreePort(start, avail).Ok? <==> exists q :: start <= q < MaxPort && avail(q)
    ensures start >= MaxPort ==> FirstFreePort(start, avail).Err?
  {
  }

  // ---------------------------------------------------------------------------
  // Resolution

  /** A hit returns localhost with the stored port and changes nothing. */
  lemma ResolveHit(t: Registry, address: Endpoint, avail: int -> bool)
    requires address in t.localPortForwards
    ensures ResolveStep(t, address, avail) == (t, Ok(Localhost(t.localPortForwards[address])))
  {
  }

  /** A miss with a free port appends exactly one open forwarder, for the address on the
      first free port, keeps the earlier forwarders and returns localhost with that port. */
  lemma ResolveMissAppendsOne(t: Registry, address: Endpoint, avail: int -> bool, p: int)
    requires address !in t.localPortForwards
    requires IsFirstFree(t.startPortRange, avail, p)
    ensures ResolveStep(t, address, avail)
         == (t.(portForwarders := t.portForwarders + [Forwarder(address, p, false)]), Ok(Localhost(p)))
  {
  }

  /** A miss with no free port in the scan range fails with the scan's IllegalState
      error and leaves the registry as it was: nothing is allocated or started. */
  lemma ResolveExhausted(t: Registry, address: Endpoint, avail: int -> bool)
    requires address !in t.localPortForwards
    requires NoneFreeIn(t.startPortRange, MaxPort, avail)
    ensures ResolveStep(t, address, avail) == (t, Err(IllegalState(NoFreePortMessage)))
  {
  }

  /** Resolving the same unmapped address twice starts two forwarders for it, not one
      cached entry; when the second probe sees the first forwarder's port as taken, the
      two calls hand out different local addresses. */
  lemma ResolveSameAddressTwice(t: Registry, address: Endpoint, avail1: int -> bool, avail2: int -> bool)
    requires address !in t.localPortForwards
    requires FirstFreePort(t.startPortRange, avail1).Ok?
    requires FirstFreePort(t.startPortRange, avail2).Ok?
    ensures var (t1, r1) := ResolveStep(t, address, avail1);
            var (t2, r2) := ResolveStep(t1, address, avail2);
            && |t2.portForwarders| == |t.portForwarders| + 2
            && t2.portForwarders[|t.portForwarders|].remoteAddress == address
            && t2.portForwarders[|t.portForwarders| + 1].remoteAddress == address
            && t2.localPortForwards == t.localPortForwards
            && (!avail2(r1.value.port) ==> r1 != r2)
  {
  }

  /** A run of resolve calls, each with the probe's answers at the time of the call. */
  datatype Request = Request(address: Endpoint, avail: int -> bool)

  /** The registry after a run of resolve calls, and the calls' results in order. */
  function RunResolves(t: Registry, reqs: seq<Request>): (Registry, seq<Result<Endpoint>>)
    decreases |reqs|
  {
    if reqs == [] then (t, [])
    else
      var (t1, r) := ResolveStep(t, reqs[0].address, reqs[0].avail);
      var (t2, rs) := RunResolves(t1, reqs[1..]);
      (t2, [r] + rs)
  }

  /** How many results of a run succeeded. */
  function CountOk(rs: seq<Result<Endpoint>>): nat
  {
    if rs == [] then 0 else (if rs[0].Ok? then 1 else 0) + CountOk(rs[1..])
  }

  /** From an empty map, any run of resolve calls keeps the map empty (so the cache-hit
      branch is never taken) and adds exactly one forwarder per successful call. */
  lemma {:induction false} RunKeepsMapEmpty(t: Registry, reqs: seq<Request>)
    requires t.localPortForwards == map[]
    ensures var (t', rs) := RunResolves(t, reqs);
            && t'.localPortForwards == map[]
            && |rs| == |reqs|
            && |t'.portForwarders| == |t.portForwarders| + CountOk(rs)
    decreases |reqs|
  {
    if reqs != [] {
      var (t1, r) := ResolveStep(t, reqs[0].address, reqs[0].avail);
      RunKeepsMapEmpty(t1, reqs[1..]);
      var (t2, rs) := RunResolves(t1, reqs[1..]);
      assert ([r] + rs)[1..] == rs;
      if r.Ok? {
        assert reqs[0].address !in t.localPortForwards;
        assert |t1.portForwarders| == |t.portForwarders| + 1;
      }
    }
  }

  /** Every call of a run that starts on a fresh connection allocates: none is a hit. */
  lemma FreshRunNeverHits(start: int, reqs: seq<Request>, k: nat)
    requires k < |reqs|
    ensures reqs[k].address !in RunResolves(Fresh(start), reqs[..k]).0.localPortForwards
  {
    RunKeepsMapEmpty(Fresh(start), reqs[..k]);
  }

  /** The same remote address resolved twice on a fresh connection scanning from 20000:
      the first call gets port 20000; the second, with 20000 now bound by the first
      forwarder, gets 20001 and a second forwarder instead of the stored 20000. */
  lemma SecondResolveMovesToNextPort()
    ensures var address := Endpoint("10.0.0.5", 443);
            var (t1, r1) := ResolveStep(Fresh(20000), address, (p: int) => true);
            var (t2, r2) := ResolveStep(t1, address, (p: int) => p != 20000);
            && r1 == Ok(Localhost(20000))
            && r2 == Ok(Localhost(20001))
            && |t2.portForwarders| == 2
  {
  }

  // ---------------------------------------------------------------------------
  // Local ports of open forwarders

  /** No two open forwarders share a local port. */
  ghost predicate OpenPortsDistinct(fs: seq<Forwarder>)
  {
    forall i, j :: 0 <= i < j < |fs| && !fs[i].closed && !fs[j].closed ==> fs[i].localPort != fs[j].localPort
  }

  /** The probe reports the port of every open forwarder as taken. */
  ghost predicate ProbeSeesOpenForwarders(avail: int -> bool, fs: seq<Forwarder>)
  {
    forall i :: 0 <= i < |fs| && !fs[i].closed ==> !avail(fs[i].localPort)
  }

  /** Under a probe that sees the bound sockets, resolve never hands out the port of an
      open forwarder, so open forwarders keep pairwise distinct ports. */
  lemma ResolveKeepsOpenPortsDistinct(t: Registry, address: Endpoint, avail: int -> bool)
    requires OpenPortsDistinct(t.portForwarders)
    requires ProbeSeesOpenForwarders(avail, t.portForwarders)
    ensures OpenPortsDistinct(ResolveStep(t, address, avail).0.portForwarders)
  {
  }

  // ---------------------------------------------------------------------------
  // Teardown

  /** Closing keeps every forwarder's address and port; forwarder i ends up closed exactly
      when it was closed already or its own close succeeded, whatever happens to the others. */
  lemma CloseAllIndependent(fs: seq<Forwarder>, closeSucceeds: int -> bool)
    ensures |CloseAll(fs, closeSucceeds)| == |fs|
    ensures forall i :: 0 <= i < |fs| ==>
      && CloseAll(fs, closeSucceeds)[i].remoteAddress == fs[i].remoteAddress
      && CloseAll(fs, closeSucceeds)[i].localPort == fs[i].localPort
      && (CloseAll(fs, closeSucceeds)[i].closed <==> fs[i].closed || closeSucceeds(i))
  {
    forall i | 0 <= i < |fs|
      ensures CloseAll(fs, closeSucceeds)[i] == CloseQuietly(fs[i], closeSucceeds(i))
    {
    }
  }

  /** When every close succeeds, no forwarder is left open. */
  lemma CloseAllClosesEverything(fs: seq<Forwarder>, closeSucceeds: int -> bool)
    requires forall i :: 0 <= i < |fs| ==> closeSucceeds(i)
    ensures forall f :: f in CloseAll(fs, closeSucceeds) ==> f.closed
  {
  }

  /** Closing never opens a forwarder, so the open ports stay distinct after a close. */
  lemma CloseAllKeepsOpenPortsDistinct(fs: seq<Forwarder>, closeSucceeds: int -> bool)
    requires OpenPortsDistinct(fs)
    ensures OpenPortsDistinct(CloseAll(fs, closeSucceeds))
  {
    CloseAllIndependent(fs, closeSucceeds);
  }

  /** doClose's log lists its close attempts before the base close: CloseEvents holds one
      attempt per forwarder, in list order (its definition), and no base close. */
  lemma CloseEventsExcludeBaseClose(fs: seq<Forwarder>)
    ensures BaseClosed !in CloseEvents(fs)
  {
  }
}
