/** The port-forward registry and resolver of an SSH tunnel connection: a connection
    to a jump host that makes other hosts reachable by starting local port forwards
    through the SSH session and handing out `localhost:<port>` addresses.

    The availability probe for local ports and the outcome of closing a forwarder's
    server socket are outside the model; they come in as oracle parameters. */
module SshTunnel {

  /** Exclusive upper bound of the port scan (MAX_PORT). */
  const MaxPort: int := 65536

  /** Message of the IllegalStateException thrown when the scan finds no free port.
      It names the range 1025-65535 whatever the configured start of the scan is. */
  const NoFreePortMessage: string := "Could not find a single free port in the range 1025-65535..."

  /** Message of the state check made after the base connection has connected. */
  const NoClientMessage: string := "Should have set an SSH client when connected"

  /** A socket address (InetSocketAddress), compared by value. */
  datatype Endpoint = Endpoint(host: string, port: int)

  /** The unresolved address `localhost:<port>` handed out by resolve. */
  function Localhost(port: int): Endpoint
  {
    Endpoint("localhost", port)
  }

  /** The exceptions the core throws. The RuntimeIOException of resolve's catch is
      absent: nothing in the guarded call throws the IOException it catches. */
  datatype Error =
    | IllegalState(message: string)          // IllegalStateException
    | UnsupportedOperation(message: string)  // UnsupportedOperationException

  datatype Result<T> = Ok(value: T) | Err(error: Error)

  datatype Outcome = Pass | Fail(error: Error)

  /** A started port forwarder, as a record: the remote address it forwards to,
      the local port its server socket is bound to, and whether that socket is closed. */
  datatype Forwarder = Forwarder(remoteAddress: Endpoint, localPort: int, closed: bool)

  /** The registry state of a tunnel connection as a value: the map from remote
      address to local port, the list of started forwarders, and the scan start. */
  datatype Registry = Registry(
    localPortForwards: map<Endpoint, int>,
    portForwarders: seq<Forwarder>,
    startPortRange: int)

  /** The registry of a newly constructed connection. */
  function Fresh(startPortRange: int): Registry
  {
    Registry(map[], [], startPortRange)
  }

  /** Externally visible actions of the connection, in the order they happen. */
  datatype Event =
    | Started(remoteAddress: Endpoint, localPort: int)
    | CloseAttempted(remoteAddress: Endpoint, localPort: int)
    | BaseClosed

  // ---------------------------------------------------------------------------
  // Port allocation (findFreePort)

  /** No port in [lo, hi) is reported free by the probe. */
  ghost predicate NoneFreeIn(lo: int, hi: int, avail: int -> bool)
  {
    forall q :: lo <= q < hi ==> !avail(q)
  }

  /** p is the first port at or above start, and below MaxPort, that the probe reports free. */
  ghost predicate IsFirstFree(start: int, avail: int -> bool, p: int)
  {
    start <= p < MaxPort && avail(p) && NoneFreeIn(start, p, avail)
  }

  /** The outcome of scanning upward from `port`: first fit, or the no-free-port error. */
  function FirstFreePort(port: int, avail: int -> bool): (r: Result<int>)
    ensures r.Ok? ==> IsFirstFree(port, avail, r.value)
    ensures r.Err? ==> r.error == IllegalState(NoFreePortMessage) && NoneFreeIn(port, MaxPort, avail)
    decreases MaxPort - port
  {
    if port >= MaxPort then Err(IllegalState(NoFreePortMessage))
    else if avail(port) then Ok(port)
    else FirstFreePort(port + 1, avail)
  }

  /** findFreePort: scans the ports from startPortRange up to MaxPort - 1 and returns
      the first one the probe accepts; fails with IllegalStateException otherwise. */
  method FindFreePort(startPortRange: int, avail: int -> bool) returns (r: Result<int>)
    ensures r.Ok? ==> IsFirstFree(startPortRange, avail, r.value)
    ensures r.Err? <==> NoneFreeIn(startPortRange, MaxPort, avail)
    ensures r.Err? ==> r.error == IllegalState(NoFreePortMessage)
    ensures r == FirstFreePort(startPortRange, avail)
  {
    var port := startPortRange;
    while port < MaxPort
      invariant FirstFreePort(port, avail) == FirstFreePort(startPortRange, avail)
      invariant startPortRange <= port
      invariant NoneFreeIn(startPortRange, port, avail)
      decreases MaxPort - port
    {
      if avail(port) {
        return Ok(port);
      }
      port := port + 1;
    }
    return Err(IllegalState(NoFreePortMessage));
  }

  // ---------------------------------------------------------------------------
  // Resolution (resolve), as written: the map is consulted but never written

  /** The effect of resolve on the registry and its result. On a hit the stored port is
      returned; on a miss a port is allocated and a forwarder appended, and the map is
      left as it was. Starting a forwarder cannot fail, so the only error is the
      scan's. */
  function ResolveStep(t: Registry, address: Endpoint, avail: int -> bool): (r: (Registry, Result<Endpoint>))
    ensures r.0.localPortForwards == t.localPortForwards
    ensures r.0.startPortRange == t.startPortRange
    ensures r.1.Ok? ==> r.1.value.host == "localhost"
    ensures r.1.Err? ==> r.0 == t && r.1.error == IllegalState(NoFreePortMessage)
    ensures |t.portForwarders| <= |r.0.portForwarders| <= |t.portForwarders| + 1
    ensures r.0.portForwarders[..|t.portForwarders|] == t.portForwarders
  {
    if address in t.localPortForwards then
      (t, Ok(Localhost(t.localPortForwards[address])))
    else
      match FirstFreePort(t.startPortRange, avail)
      case Err(e) => (t, Err(e))
      case Ok(p) =>
        (t.(portForwarders := t.portForwarders + [Forwarder(address, p, false)]), Ok(Localhost(p)))
  }

  // ---------------------------------------------------------------------------
  // Teardown (doClose)

  /** Closeables.closeQuietly on one forwarder: the socket ends up closed when the close
      succeeds (closing an already closed socket always does); a failure is swallowed. */
  function CloseQuietly(f: Forwarder, succeeds: bool): (g: Forwarder)
    ensures g.remoteAddress == f.remoteAddress && g.localPort == f.localPort
    ensures g.closed <==> f.closed || succeeds
  {
    f.(closed := f.closed || succeeds)
  }

  /** The forwarder list after closing each forwarder quietly; position i's close
      succeeds when closeSucceeds(i). */
  function CloseAll(fs: seq<Forwarder>, closeSucceeds: int -> bool): seq<Forwarder>
  {
    seq(|fs|, i requires 0 <= i < |fs| => CloseQuietly(fs[i], closeSucceeds(i)))
  }

  /** The close attempts doClose makes, one per forwarder, in list order. */
  function CloseEvents(fs: seq<Forwarder>): seq<Event>
  {
    seq(|fs|, i requires 0 <= i < |fs| => CloseAttempted(fs[i].remoteAddress, fs[i].localPort))
  }

  // ---------------------------------------------------------------------------
  // Operations a tunnel does not support

  /** The file, process, command-line and working-directory operations of a connection. */
  datatype Operation =
    | GetFile
    | GetChildFile
    | StartProcess
    | ProcessCommandLine
    | AddCommandSeparator
    | CreateProcess
    | SetWorkingDirectory
    | GetWorkingDirectory
    | Execute

  /** The message of the UnsupportedOperationException each operation throws. */
  function UnsupportedMessage(op: Operation): string
  {
    match op
    case GetFile => "Cannot get a file from the tunnel."
    case GetChildFile => "Cannot get a file from the tunnel."
    case StartProcess => "Cannot start a process on the tunnel."
    case ProcessCommandLine => "Cannot process a command line for the tunnel."
    case AddCommandSeparator => "Cannot add a separator to the command line in the tunnel."
    case CreateProcess => "Cannot create a process in the tunnel."
    case SetWorkingDirectory => "Cannot set a working directory on the tunnel."
    case GetWorkingDirectory => "Cannot get a working directory from the tunnel."
    case Execute => "Cannot execute a command on the tunnel."
  }

  // ---------------------------------------------------------------------------
  // The connection

  class SshTunnelConnection {
    var localPortForwards: map<Endpoint, int>
    var portForwarders: seq<Forwarder>
    var startPortRange: int
    /** Whether the base connection holds an SSH client (sshClient != null). */
    var hasClient: bool
    /** Whether the base connection's own close has run. */
    var baseClosed: bool
    /** The forwarder starts, close attempts and base close, in order. */
    ghost var log: seq<Event>

    /** The registry part of the state, as a value. */
    function State(): Registry
      reads this
    {
      Registry(localPortForwards, portForwarders, startPortRange)
    }

    /** A new connection: empty map and list, the configured start of the port scan. */
    constructor (startPortRange: int)
      ensures State() == Fresh(startPortRange)
      ensures !hasClient && !baseClosed && log == []
    {
      localPortForwards := map[];
      portForwarders := [];
      this.startPortRange := startPortRange;
      hasClient := false;
      baseClosed := false;
      log := [];
    }

    /** connect: the base connect (whose effect on the client handle is the parameter),
        then a state check that a client is present. */
    method Connect(clientAfterBaseConnect: bool) returns (r: Outcome)
      modifies this`hasClient
      ensures hasClient == clientAfterBaseConnect
      ensures r.Pass? <==> hasClient
      ensures r.Fail? ==> r.error == IllegalState(NoClientMessage)
    {
      hasClient := clientAfterBaseConnect;
      if !hasClient {
        return Fail(IllegalState(NoClientMessage));
      }
      return Pass;
    }

    /** resolve: returns the stored local address on a hit; otherwise allocates a port,
        starts a forwarder for the address on it, appends it to portForwarders and
        returns localhost:<port>. The map is never written. */
    method Resolve(address: Endpoint, avail: int -> bool) returns (r: Result<Endpoint>)
      modifies this`portForwarders, this`log
      ensures (State(), r) == ResolveStep(old(State()), address, avail)
      ensures log == if r.Ok? && address !in localPortForwards
                     then old(log) + [Started(address, r.value.port)]
                     else old(log)
    {
      if address in localPortForwards {
        return Ok(Localhost(localPortForwards[address]));
      }
      var port := FindFreePort(startPortRange, avail);
      if port.Err? {
        return Err(port.error);
      }
      var forwarder := Forwarder(address, port.value, false);
      portForwarders := portForwarders + [forwarder];
      log := log + [Started(address, port.value)];
      return Ok(Localhost(port.value));
    }

    /** doClose: closes every forwarder quietly, in list order, then runs the base close.
        Neither the list nor the map is cleared. */
    method DoClose(closeSucceeds: int -> bool)
      modifies this`portForwarders, this`log, this`baseClosed
      ensures portForwarders == CloseAll(old(portForwarders), closeSucceeds)
      ensures baseClosed
      ensures log == old(log) + CloseEvents(old(portForwarders)) + [BaseClosed]
    {
      ghost var fs := portForwarders;
      var i := 0;
      while i < |portForwarders|
        invariant |portForwarders| == |fs|
        invariant 0 <= i <= |fs|
        invariant forall k :: 0 <= k < i ==> portForwarders[k] == CloseQuietly(fs[k], closeSucceeds(k))
        invariant forall k :: i <= k < |fs| ==> portForwarders[k] == fs[k]
        invariant log == old(log) + CloseEvents(fs)[..i]
      {
        log := log + [CloseAttempted(portForwarders[i].remoteAddress, portForwarders[i].localPort)];
        portForwarders := portForwarders[i := CloseQuietly(portForwarders[i], closeSucceeds(i))];
        i := i + 1;
      }
      assert CloseEvents(fs)[..i] == CloseEvents(fs);
      baseClosed := true;
      log := log + [BaseClosed];
    }

    /** Every file, process, command-line and working-directory operation throws
        UnsupportedOperationException naming what was attempted, and changes nothing. */
    method Unsupported(op: Operation) returns (r: Outcome)
      ensures r.Fail? && r.error.UnsupportedOperation?
      ensures r.error.message == UnsupportedMessage(op)
    {
      return Fail(UnsupportedOperation(UnsupportedMessage(op)));
    }
  }
}
