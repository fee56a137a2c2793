/**
 * Choosing the address the HTTP server listens on: the local address of
 * the connection to the receiver, stripped of its port (and, for IPv6, of
 * its flow information), then bound on the port or ports the `--port`
 * option names. Binding a socket is an oracle, `bindAt`.
 */
module Net {
  import opened Common
  import Cli

  datatype SocketAddr =
    | V4(ip4: nat, port: u16)
    | V6(ip6: nat, port: u16, flowinfo: u32, scopeId: u32)

  datatype IoError = IoError(description: string)

  datatype Listener = Listener(addr: SocketAddr)

  /** The listen address: the same IP (and IPv6 scope), port and flow
      information cleared. */
  function ListenAddr(local: SocketAddr): (r: SocketAddr)
    ensures r.V4? <==> local.V4?
    ensures r.port == 0
    ensures r.V4? ==> r.ip4 == local.ip4
    ensures r.V6? ==> r.ip6 == local.ip6 && r.scopeId == local.scopeId && r.flowinfo == 0
  {
    match local
    case V4(ip, _) => V4(ip, 0)
    case V6(ip, _, _, scope) => V6(ip, 0, 0, scope)
  }

  /** `SocketAddr::set_port` */
  function WithPort(addr: SocketAddr, port: u16): (r: SocketAddr)
    ensures r.port == port
    ensures r == addr.(port := port)
  {
    addr.(port := port)
  }

  /** The addresses `bind` tries, in order. */
  function Attempts(local: SocketAddr, port: Cli.PortOrRange): (r: seq<SocketAddr>)
    ensures |r| == |Cli.Ports(port)|
    ensures forall i :: 0 <= i < |r| ==> r[i] == WithPort(ListenAddr(local), Cli.Ports(port)[i])
  {
    var ports := Cli.Ports(port);
    seq(|ports|, i requires 0 <= i < |ports| => WithPort(ListenAddr(local), ports[i]))
  }

  /** `bind`: a random port binds port 0 and a single port binds that port;
      a range tries its ports upwards and stops at the first that binds,
      or fails with the first error. An empty range panics. */
  method Bind(local: SocketAddr, port: Cli.PortOrRange, bindAt: SocketAddr -> Result<Listener, IoError>)
    returns (r: Fallible<Result<Listener, IoError>>)
    ensures r.Panics? <==> Attempts(local, port) == []
    ensures r.Done? && r.value.Ok? ==>
      exists j :: (0 <= j < |Attempts(local, port)|
        && r.value == bindAt(Attempts(local, port)[j])
        && forall i :: 0 <= i < j ==> bindAt(Attempts(local, port)[i]).Err?)
    ensures r.Done? && r.value.Err? ==>
      (r.value == bindAt(Attempts(local, port)[0])
       && forall i :: 0 <= i < |Attempts(local, port)| ==> bindAt(Attempts(local, port)[i]).Err?)
  {
    var listenAddr := ListenAddr(local);
    ghost var attempts := Attempts(local, port);
    if port.RandomPort? {
      assert attempts[0] == listenAddr;
      return Done(bindAt(listenAddr));
    } else if port.SinglePort? {
      assert attempts[0] == WithPort(listenAddr, port.port);
      return Done(bindAt(WithPort(listenAddr, port.port)));
    }
    var ports := Cli.Ports(port);
    var firsterr: Option<IoError> := None;
    for i := 0 to |ports|
      invariant forall j :: 0 <= j < i ==> bindAt(attempts[j]).Err?
      invariant firsterr.None? <==> i == 0
      invariant i > 0 ==> Err(firsterr.value) == bindAt(attempts[0])
    {
      var bound := bindAt(WithPort(listenAddr, ports[i]));
      assert bound == bindAt(attempts[i]);
      if bound.Ok? {
        assert 0 <= i < |attempts| && Ok(bound.value) == bindAt(attempts[i]);
        return Done(Ok(bound.value));
      }
      if firsterr.None? {
        firsterr := Some(bound.error);
      }
    }
    assert |attempts| == |ports|;
    if firsterr.None? {
      return Panics;
    }
    r := Done(Err(firsterr.value));
  }

  /** A port option the parser produced always names at least one port, so
      `bind` never panics on it; a random port is one attempt on port 0. */
  lemma BindAttemptsNonEmpty(local: SocketAddr, s: string)
    requires Cli.FromStr(s).Ok?
    ensures |Attempts(local, Cli.FromStr(s).value)| >= 1
    ensures Attempts(local, Cli.RandomPort) == [ListenAddr(local)]
  {
    Cli.ParsedPortsAscending(s);
    assert WithPort(ListenAddr(local), 0) == ListenAddr(local);
  }

  /** The ports of a range are tried upwards. */
  lemma AttemptsAscend(local: SocketAddr, s: string)
    requires Cli.FromStr(s).Ok?
    ensures forall i, j :: 0 <= i < j < |Attempts(local, Cli.FromStr(s).value)| ==>
      Attempts(local, Cli.FromStr(s).value)[i].port < Attempts(local, Cli.FromStr(s).value)[j].port
  {
    Cli.ParsedPortsAscending(s);
  }
}
