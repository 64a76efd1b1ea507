# SSH tunnel connection: port-forward registry and resolver

This project models the sequential core of the SSH tunnel connection in overthere. The
connection is made to a jump host. When a caller asks it to resolve a remote address, it
finds a free local port, starts a local port forwarder through the SSH session to that
address, and returns `localhost:<port>`. The model covers these parts:

- **findFreePort**: a first-fit scan upward from the configured `startPortRange`. It stops
  before `MAX_PORT` = 65536 and returns the first port that the availability probe accepts.
  If no port is free it fails with an `IllegalStateException`.
- **resolve**: looks the address up in `localPortForwards`. On a hit it returns the stored
  port. On a miss it allocates a port, starts a forwarder and appends it to
  `portForwarders`.
- **doClose**: closes every forwarder quietly, in list order, and then runs the base close.
- **connect**: the state check that an SSH client is present after the base connect.
- **The unsupported operations**: every file, process, command-line and working-directory
  operation throws `UnsupportedOperationException` and has no other effect.

Files:

- `ssh_tunnel.dfy` (module `SshTunnel`): the data model, the scan, the value-level resolve
  step, and the class `SshTunnelConnection`. The class has the source's fields
  (`localPortForwards`, `portForwarders`, `startPortRange`) and its methods are proved
  against the value-level functions.
- `ssh_tunnel_properties.dfy` (module `SshTunnelProperties`): lemmas about the model.
- `forward_cache.dfy` (module `ForwardCache`): the corrected, caching resolve that the
  finding below calls for, with its properties.

External inputs are parameters:

- The port probe (`Sockets.checkAvailable`) is an oracle `avail: int -> bool`. Each
  `Resolve` call gets the probe's answers at the time of that call.
- The outcome of closing forwarder i's server socket is `closeSucceeds(i)`.
- Whether the base connect leaves an SSH client in place is a boolean parameter of
  `Connect`.

Behaviour as written that the model makes provable:

- `resolve` never inserts into `localPortForwards`. The map stays empty for the object's
  lifetime, and the cache-hit branch cannot be reached from a new connection. Every call
  allocates a port and starts another forwarder, even for an address seen before. See
  `RunKeepsMapEmpty`, `FreshRunNeverHits` and `ResolveSameAddressTwice`.
- The `catch (IOException)` in `resolve` is dead code. `startForwarder` declares
  `IOException` but nothing in it throws one. So `resolve` never closes the connection and
  never throws `RuntimeIOException`. Its only failure is the scan's `IllegalStateException`
  (`ResolveStep`).
- The no-free-port message always names the range 1025-65535, whatever `startPortRange`
  is (`FirstFreePort`, `FindFreePort`).
- `resolve` itself has no check for a closed connection: `Resolve` has no precondition on
  `baseClosed`. Whether a forwarder can start after the base close depends on what the
  base class does to the SSH client, which this model does not know.

## Model

| member | source | states |
|---|---|---|
| SshTunnel.FirstFreePort | overthere/src/main/java/com/xebialabs/overthere/ssh/SshTunnelConnection.java:90-95 | The scan from a port either returns the first port at or above it and below 65536 that the probe accepts, with every port before it refused, or fails with IllegalState and the fixed message exactly when no port in that range is accepted |
| SshTunnel.FindFreePort | overthere/src/main/java/com/xebialabs/overthere/ssh/SshTunnelConnection.java:89-96 | The loop returns the first-fit port p with startPortRange <= p <= 65535 and avail(p), and every lower port in the range refused; it fails with IllegalState("...1025-65535...") if and only if no port in [startPortRange, 65536) is free, including when startPortRange >= 65536 |
| SshTunnel.ResolveStep | overthere/src/main/java/com/xebialabs/overthere/ssh/SshTunnelConnection.java:69-87 | resolve never changes the map or the scan start; it returns only localhost addresses; it appends at most one forwarder and keeps the earlier ones; its only failure is the scan's IllegalState, which leaves the state unchanged (the RuntimeIOException path cannot occur) |
| SshTunnel.SshTunnelConnection.constructor | overthere/src/main/java/com/xebialabs/overthere/ssh/SshTunnelConnection.java:41-50 | A new connection has an empty map, an empty forwarder list and the configured scan start |
| SshTunnel.SshTunnelConnection.Connect | overthere/src/main/java/com/xebialabs/overthere/ssh/SshTunnelConnection.java:53-56 | After the base connect, connect succeeds exactly when a client is present, and otherwise fails with IllegalState("Should have set an SSH client when connected") |
| SshTunnel.SshTunnelConnection.Resolve | overthere/src/main/java/com/xebialabs/overthere/ssh/SshTunnelConnection.java:68-87 | The new fields and the result are those of ResolveStep on the old fields; a forwarder start is recorded exactly when a miss succeeds |
| SshTunnel.SshTunnelConnection.DoClose | overthere/src/main/java/com/xebialabs/overthere/ssh/SshTunnelConnection.java:59-66 | Each forwarder is closed quietly (a failed close leaves it open and does not stop the rest); closes are attempted in list order, then the base close runs; the list keeps its entries and the map is untouched |
| SshTunnel.SshTunnelConnection.Unsupported | overthere/src/main/java/com/xebialabs/overthere/ssh/SshTunnelConnection.java:110-153 | Every file, process, command-line and working-directory operation fails with UnsupportedOperation and its own message; it changes no state |
| SshTunnelProperties.FirstFreeIsUnique | overthere/src/main/java/com/xebialabs/overthere/ssh/SshTunnelConnection.java:90-94 | The first-fit port is determined by the probe: two first-fit ports are equal |
| SshTunnelProperties.FirstFreePortSucceedsIff | overthere/src/main/java/com/xebialabs/overthere/ssh/SshTunnelConnection.java:90-95 | The scan succeeds if and only if some port in [start, 65536) is free, and always fails for start >= 65536 |
| SshTunnelProperties.ResolveHit | overthere/src/main/java/com/xebialabs/overthere/ssh/SshTunnelConnection.java:72-73 | An address in the map resolves to localhost with its stored port, and neither the map nor the list changes |
| SshTunnelProperties.ResolveMissAppendsOne | overthere/src/main/java/com/xebialabs/overthere/ssh/SshTunnelConnection.java:76-83 | An address not in the map, with a free port, gets exactly one new open forwarder (that address, the first free port) appended after the unchanged earlier ones, and the result localhost:<that port> |
| SshTunnelProperties.ResolveExhausted | overthere/src/main/java/com/xebialabs/overthere/ssh/SshTunnelConnection.java:76-76 | An address not in the map, with no free port in range, fails with the scan's IllegalState and starts no forwarder |
| SshTunnelProperties.ResolveSameAddressTwice | overthere/src/main/java/com/xebialabs/overthere/ssh/SshTunnelConnection.java:69-87 | Two resolves of the same unmapped address add two forwarders for it and leave the map unchanged; if the second probe sees the first port taken, the two results differ |
| SshTunnelProperties.SecondResolveMovesToNextPort | overthere/src/main/java/com/xebialabs/overthere/ssh/SshTunnelConnection.java:72-83 | On a new connection scanning from 20000, resolving 10.0.0.5:443 twice gives localhost:20000 and then localhost:20001, with two forwarders |
| SshTunnelProperties.RunKeepsMapEmpty | overthere/src/main/java/com/xebialabs/overthere/ssh/SshTunnelConnection.java:41-41 | Starting from an empty map, any run of resolves keeps the map empty and adds exactly one forwarder per successful call |
| SshTunnelProperties.FreshRunNeverHits | overthere/src/main/java/com/xebialabs/overthere/ssh/SshTunnelConnection.java:72-74 | On a new connection, no resolve in any run takes the cache-hit branch |
| SshTunnelProperties.ResolveKeepsOpenPortsDistinct | overthere/src/main/java/com/xebialabs/overthere/ssh/SshTunnelConnection.java:76-78 | If the probe reports the ports of open forwarders as taken, resolve keeps the local ports of open forwarders pairwise distinct |
| SshTunnel.CloseQuietly | overthere/src/main/java/com/xebialabs/overthere/ssh/SshTunnelConnection.java:196-204 | Closing one forwarder quietly keeps its address and port; afterwards the socket is closed exactly when it was closed already (closing a closed ServerSocket succeeds) or this close succeeded; a failed close leaves the socket open and its IOException is swallowed |
| SshTunnelProperties.CloseAllIndependent | overthere/src/main/java/com/xebialabs/overthere/ssh/SshTunnelConnection.java:61-63 | Closing keeps every forwarder's address and port; forwarder i ends up closed exactly when it already was or its own close succeeded, whatever happens to the others |
| SshTunnelProperties.CloseAllClosesEverything | overthere/src/main/java/com/xebialabs/overthere/ssh/SshTunnelConnection.java:59-63 | When every close succeeds, no forwarder is left open |
| SshTunnelProperties.CloseAllKeepsOpenPortsDistinct | overthere/src/main/java/com/xebialabs/overthere/ssh/SshTunnelConnection.java:59-63 | Closing never reopens a forwarder, so distinct open ports stay distinct |
| SshTunnelProperties.CloseEventsExcludeBaseClose | overthere/src/main/java/com/xebialabs/overthere/ssh/SshTunnelConnection.java:61-65 | None of the close attempts doClose makes (one per forwarder, in list order) is the base close, so every forwarder close is attempted before the base close, which DoClose logs last |
| ForwardCache.ResolveCaching | overthere/src/main/java/com/xebialabs/overthere/ssh/SshTunnelConnection.java:72-83 | Corrected resolve: its result and forwarder list are those of the as-written resolve (first free port, one open forwarder for the address on a miss); a successful miss adds exactly the entry address -> returned port and keeps every other entry; a hit changes nothing; a failure is the scan's and changes nothing |
| ForwardCache.CachingKeepsMappedPorts | overthere/src/main/java/com/xebialabs/overthere/ssh/SshTunnelConnection.java:72-73 | With the corrected resolve, an address already mapped stays mapped to the same port across a resolve of any address |
| ForwardCache.FreshIsConsistent | overthere/src/main/java/com/xebialabs/overthere/ssh/SshTunnelConnection.java:41-43 | A new connection's map and forwarder list agree |
| ForwardCache.RecordKeepsConsistent | overthere/src/main/java/com/xebialabs/overthere/ssh/SshTunnelConnection.java:76-78 | Recording a new forward for an unmapped address in both the map and the list keeps them in agreement, with at most one forwarder per address |
| ForwardCache.CachingKeepsConsistent | overthere/src/main/java/com/xebialabs/overthere/ssh/SshTunnelConnection.java:72-83 | The corrected resolve keeps the map and the list in agreement: each forwarder is recorded under its address with its port, at most one forwarder per address, and one forwarder per key |
| ForwardCache.CachingResolveIsStable | overthere/src/main/java/com/xebialabs/overthere/ssh/SshTunnelConnection.java:72-73 | With the corrected resolve, resolving an address again returns the same local address and starts nothing, whatever the probe says |
| ForwardCache.CachingScenario | overthere/src/main/java/com/xebialabs/overthere/ssh/SshTunnelConnection.java:69-87 | With the corrected resolve, on a new connection scanning from 20000: the same address twice gets localhost:20000 with one forwarder; a second address then gets localhost:20001 |

## Left out

- Threads, the `CountDownLatch` readiness gate, `join`, interruption handling and the process-wide `Monitor` lock (lines 38, 70, 85, 101-106, 162, 187, 199-203). These are concurrency. The lock only makes `resolve` atomic, and calls in the model run one after another.
- Failures inside a forwarder's thread are not modelled. The bind in `run` can fail (lines 179-183), or `newLocalPortForwarder` can be called with no client. In both cases the thread dies before the latch is counted down, so the resolving caller waits forever while holding the lock. In the model, starting a forwarder always succeeds.
- SshTunnel.SshTunnelConnection.DoClose: a failed close leaves the forwarder marked open and nothing more. It does not model the `NullPointerException` that `close` would raise, past `closeQuietly`, for a forwarder whose socket was never bound. Such a forwarder only gets into the list when the waiting thread is interrupted, and interruption is left out.
- `Sockets.checkAvailable`, `getServerSocket` and the SSH library's local port forwarder are not part of this model. The probe is a total boolean oracle. So the model does not capture what the probe or `InetSocketAddress.createUnresolved` do with a port below 0 (a negative `startPortRange`).
- `InetSocketAddress` equality, for example resolved against unresolved addresses, is not modelled. `Endpoint` is a host name and a port compared by value.
- The base `SshConnection` constructor, connect and close are not part of this model. The constructor's `!hasClient` assumes the base constructor leaves `sshClient` null. Connect is reduced to its effect on the client handle, a parameter. The base close is recorded only as `baseClosed` and a `BaseClosed` event.
- What the base close does to the SSH client handle is not modelled. `DoClose` leaves `hasClient` as it was. After a real close, a forwarder started by a later resolve may find no client, and the resolving caller may then wait forever (see the forwarder-thread line above).
- The default of `startPortRange` comes from `SshConnectionBuilder`, which is not part of this model. The constructor takes the configured value.
- Logging and the forwarder thread's name (`buildName`, lines 171-173) are left out. They have no effect on the state.

## Findings

| source | as written | input that shows it | evidently intended | confidence | as-written member | corrected member |
|---|---|---|---|---|---|---|
| overthere/src/main/java/com/xebialabs/overthere/ssh/SshTunnelConnection.java:69-87 | `resolve` reads `localPortForwards` but never puts into it, so every call allocates a new port and starts a new forwarder | A new connection scanning from 20000. Resolve 10.0.0.5:443 twice, and the first forwarder holds 20000 at the second call: the results are localhost:20000, then localhost:20001, with two forwarders | Record the new port under the address, so that resolving it again returns the same local address and starts nothing | not executed; high (the class has no write to the map) | SshTunnelProperties.SecondResolveMovesToNextPort | ForwardCache.CachingResolveIsStable |

The connection class `SshTunnel.SshTunnelConnection` models `resolve` as written. `ForwardCache.ResolveCaching` is the corrected definition, and `ForwardCache.CachingKeepsConsistent` proves its at-most-once invariant.
