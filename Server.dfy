/** The relay role: server.ServeConn, run for every control connection the
    relay accepts. It reads the port handshake, asks net.Listen for a
    listener on that port, upgrades the control connection to a multiplexed session in the
    stream-opening role, and then, for every external connection the
    listener accepts, opens one stream and hands the pair to a proxy.

    The environment is given as oracles: `input` is the bytes the control
    connection delivers before it ends, `listenOk` and `sessionOk` are the
    outcomes of net.Listen and yamux.Client, and `arrivals` lists, for each
    external connection the listener accepts in turn, whether sess.Open
    succeeds for it; the Accept after the last listed connection fails
    (the listener was closed, for instance by the session-close watcher). */
module Server {
  import opened Common
  import opened Handshake

  /** Why ServeConn returned. */
  datatype Exit =
    | ReadPortFailed(cause: ReadError)
    | ListenFailed(port: uint32)
    | SessionFailed
    | AcceptFailed
    | OpenFailed

  /** An accepted external connection and the stream opened for it, each
      numbered from 0 in the order the loop obtained them. */
  datatype ProxyPair = ProxyPair(external: nat, stream: nat)

  /** What one ServeConn call did. `leaked` lists the accepted external
      connections the handler neither proxied nor closed. `closed` lists
      the deferred closes in the order they ran. `watcherClose` says
      whether the goroutine waiting for the session to close was started;
      it closes the listener once more when the session closes, which
      happens at the latest when the deferred session close runs, at a
      time relative to the deferred closes that the model leaves open. */
  datatype Run = Run(
    exit: Exit,
    port: Option<uint32>,
    accepted: nat,
    opens: nat,
    proxies: seq<ProxyPair>,
    leaked: seq<nat>,
    closed: seq<Resource>,
    watcherClose: bool)

  /** net.Listen succeeded for the negotiated port before this exit. */
  predicate ListenerBound(exit: Exit)
  {
    exit.SessionFailed? || exit.AcceptFailed? || exit.OpenFailed?
  }

  /** A multiplexed session was created before this exit. */
  predicate SessionCreated(exit: Exit)
  {
    exit.AcceptFailed? || exit.OpenFailed?
  }

  /** Everything a ServeConn call promises about its run. */
  ghost predicate RelayOutcome(input: seq<byte>, listenOk: bool, sessionOk: bool, arrivals: seq<bool>, run: Run)
  {
    // the handshake: a short read ends the handler before anything is bound
    && (run.exit.ReadPortFailed? <==> |input| < 4)
    && (run.exit.ReadPortFailed? ==> run.exit.cause == ReadPort(input).error && run.port == None)
    && (!run.exit.ReadPortFailed? ==> run.port == Some(ReadPort(input).value.0))
    && (run.exit.ListenFailed? ==> run.exit.port == ReadPort(input).value.0)
    // the acquisition sequence
    && (ListenerBound(run.exit) <==> |input| >= 4 && listenOk)
    && (SessionCreated(run.exit) <==> |input| >= 4 && listenOk && sessionOk)
    // the accept loop: one Open per accepted connection, one proxy per successful Open
    && (!SessionCreated(run.exit) ==>
          run.accepted == 0 && run.opens == 0 && run.proxies == [] && run.leaked == [])
    && (SessionCreated(run.exit) ==>
          var n := LeadingTrue(arrivals);
          && run.exit == (if n == |arrivals| then AcceptFailed else OpenFailed)
          && run.accepted == run.opens == (if n == |arrivals| then n else n + 1)
          && |run.proxies| == n
          && (forall k :: 0 <= k < n ==> run.proxies[k] == ProxyPair(k, k))
          && run.leaked == (if n == |arrivals| then [] else [n]))
    // teardown on every exit path: session, then listener, then connection
    && run.closed ==
         (if SessionCreated(run.exit) then [MuxSession, PortListener, ControlConn]
          else if ListenerBound(run.exit) then [PortListener, ControlConn]
          else [ControlConn])
    // the close watcher exists exactly when a session was created
    && (run.watcherClose <==> SessionCreated(run.exit))
  }

  /** server.ServeConn. */
  method ServeConn(input: seq<byte>, listenOk: bool, sessionOk: bool, arrivals: seq<bool>)
    returns (run: Run)
    ensures RelayOutcome(input, listenOk, sessionOk, arrivals, run)
  {
    var deferred := [ControlConn];            // register the close of the connection (main.go:43)
    var read := ReadPort(input);
    if read.Err? {
      return Run(ReadPortFailed(read.error), None, 0, 0, [], [], Unwind(deferred), false);
    }
    var port := read.value.0;
    if !listenOk {
      return Run(ListenFailed(port), Some(port), 0, 0, [], [], Unwind(deferred), false);
    }
    deferred := deferred + [PortListener];    // register the close of the listener (main.go:57-60)
    if !sessionOk {
      return Run(SessionFailed, Some(port), 0, 0, [], [], Unwind(deferred), false);
    }
    deferred := deferred + [MuxSession];      // register the close of the session (main.go:67)
    // start the watcher that closes the listener when the session closes (main.go:69-72)

    var accepted, opens := 0, 0;
    var proxies: seq<ProxyPair> := [];
    while true
      invariant accepted == opens == |proxies| <= |arrivals|
      invariant forall k :: 0 <= k < accepted ==> arrivals[k]
      invariant forall k :: 0 <= k < |proxies| ==> proxies[k] == ProxyPair(k, k)
      decreases |arrivals| - accepted
    {
      // accept the next external connection; past the last outcome it fails (main.go:75-79)
      if accepted == |arrivals| {
        return Run(AcceptFailed, Some(port), accepted, opens, proxies, [], Unwind(deferred), true);
      }
      var external := accepted;
      accepted := accepted + 1;
      // open a stream for it (main.go:81-85)
      var stream := opens;
      opens := opens + 1;
      if !arrivals[external] {
        return Run(OpenFailed, Some(port), accepted, opens, proxies, [external], Unwind(deferred), true);
      }
      // hand the pair to a proxy (main.go:86)
      proxies := proxies + [ProxyPair(external, stream)];
    }
  }

  /** Cleanup is complete on every exit path: the deferred close of the
      control connection always runs, and runs last of the deferred closes;
      the listener is closed exactly when it was bound, by its deferred
      close and, once a session exists, once more by the watcher; the
      session is closed exactly when it was created; no deferred close
      runs twice. */
  lemma TeardownComplete(input: seq<byte>, listenOk: bool, sessionOk: bool, arrivals: seq<bool>, run: Run)
    requires RelayOutcome(input, listenOk, sessionOk, arrivals, run)
    ensures |run.closed| > 0 && run.closed[|run.closed| - 1] == ControlConn
    ensures PortListener in run.closed <==> |input| >= 4 && listenOk
    ensures MuxSession in run.closed <==> |input| >= 4 && listenOk && sessionOk
    ensures forall r :: multiset(run.closed)[r] <= 1
    ensures run.watcherClose ==> PortListener in run.closed && MuxSession in run.closed
    ensures ListenerBound(run.exit) <==> PortListener in run.closed
  {
  }

  /** Every accepted external connection caused exactly one Open, and is
      either proxied with its stream or, when that Open failed, left over:
      the proxies are exactly the successful Opens. */
  lemma AcceptedAccountedFor(input: seq<byte>, listenOk: bool, sessionOk: bool, arrivals: seq<bool>, run: Run)
    requires RelayOutcome(input, listenOk, sessionOk, arrivals, run)
    ensures run.opens == run.accepted == |run.proxies| + |run.leaked|
    ensures |run.leaked| <= 1
    ensures forall k :: 0 <= k < |run.proxies| ==> run.proxies[k].external == run.proxies[k].stream == k
    ensures forall k :: 0 <= k < |run.proxies| ==> arrivals[k]
  {
  }
}
