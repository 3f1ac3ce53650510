/** The hidden-side role: client.reconnect, client.servePortOnce and
    client.ServePort, for one port mapping (localPort, remotePort).

    Dials of the relay are given as a sequence of outcomes; when it runs
    out before a dial succeeds, the model stops observing a reconnect that
    is still retrying (the source retries for ever). After the session is
    built, `localDials` lists, for each stream sess.Accept returns in turn,
    whether the dial of the local service succeeds; the Accept after the
    last listed stream fails (the session was torn down). Sleeps are
    recorded as their lengths in seconds. */
module Client {
  import opened Common
  import opened Handshake
  import Backoff

  /** client.reconnect: dial until a dial succeeds, sleeping the doubled
      and capped counter after each failure. `delays` are the sleeps taken;
      when `connected`, the connection returned is that of dial number
      |delays| (from 0), and every earlier dial failed. */
  method Reconnect(dials: seq<bool>) returns (connected: bool, delays: seq<nat>)
    ensures connected <==> true in dials
    ensures connected ==> |delays| < |dials| && dials[|delays|]
    ensures !connected ==> |delays| == |dials|
    ensures forall k :: 0 <= k < |delays| ==> !dials[k]
    ensures delays == Backoff.Schedule(|delays|)
  {
    var n := 1;
    var attempt := 0;
    delays := [];
    while attempt < |dials|
      invariant attempt <= |dials|
      invariant |delays| == attempt
      invariant forall k :: 0 <= k < attempt ==> !dials[k]
      invariant n == Backoff.Delay(attempt)
      invariant delays == Backoff.Schedule(attempt)
    {
      // dial the relay (main.go:113)
      if dials[attempt] {
        return true, delays;
      }
      Backoff.DelayStep(attempt);
      n := n * 2;
      if n >= 30 {
        n := 30;
      }
      // sleep n seconds (main.go:121)
      delays := delays + [n];
      attempt := attempt + 1;
    }
    connected := false;
  }

  /** The environment of one connect cycle. */
  datatype CycleEnv = CycleEnv(relayDials: seq<bool>, writeOk: bool, sessionOk: bool, localDials: seq<bool>)

  /** Where one cycle ended. StillDialing: reconnect had not yet succeeded
      when the dial outcomes ran out. The other three are the returns of
      servePortOnce. */
  datatype CycleExit = StillDialing | WriteFailed | SessionFailed | AcceptFailed

  /** A dial of the local service made for the stream with that number. */
  datatype LocalDial = LocalDial(stream: nat, port: uint32)

  /** What one cycle did: the reconnect sleeps, the bytes handed to the
      handshake write, the local dials in order, the streams proxied and
      the streams closed after a failed dial, and the deferred closes in
      the order they ran. */
  datatype Cycle = Cycle(
    exit: CycleExit,
    backoff: seq<nat>,
    handshake: seq<byte>,
    attempts: seq<LocalDial>,
    proxied: seq<nat>,
    refused: seq<nat>,
    closed: seq<Resource>)

  /** Everything a servePortOnce call promises about its run. */
  ghost predicate CycleOutcome(localPort: uint32, remotePort: uint32, env: CycleEnv, c: Cycle)
  {
    // reconnect: fresh schedule, ends at the first successful dial
    && (c.exit == StillDialing <==> !(true in env.relayDials))
    && c.backoff == Backoff.Schedule(|c.backoff|)
    && |c.backoff| <= |env.relayDials|
    && (forall k :: 0 <= k < |c.backoff| ==> !env.relayDials[k])
    && (c.exit == StillDialing ==> |c.backoff| == |env.relayDials|)
    && (c.exit != StillDialing ==> |c.backoff| < |env.relayDials| && env.relayDials[|c.backoff|])
    // handshake and session
    && (c.exit == StillDialing ==> c.handshake == [] && c.closed == [])
    && (c.exit != StillDialing ==> c.handshake == Encode(remotePort))
    && (c.exit == WriteFailed <==> true in env.relayDials && !env.writeOk)
    && (c.exit == SessionFailed <==> true in env.relayDials && env.writeOk && !env.sessionOk)
    && (c.exit == AcceptFailed <==> true in env.relayDials && env.writeOk && env.sessionOk)
    && (c.exit == WriteFailed || c.exit == SessionFailed ==> c.closed == [ControlConn])
    // the accept loop: one local dial per accepted stream, in order
    && (c.exit != AcceptFailed ==> c.attempts == [] && c.proxied == [] && c.refused == [])
    && (c.exit == AcceptFailed ==>
          && |c.attempts| == |env.localDials|
          && (forall i :: 0 <= i < |env.localDials| ==> c.attempts[i] == LocalDial(i, localPort))
          && c.proxied == Positions(env.localDials, true)
          && c.refused == Positions(env.localDials, false)
          && c.closed == [MuxSession, ControlConn])
  }

  /** client.servePortOnce. */
  method ServePortOnce(localPort: uint32, remotePort: uint32, env: CycleEnv) returns (c: Cycle)
    ensures CycleOutcome(localPort, remotePort, env, c)
  {
    var connected, backoff := Reconnect(env.relayDials);
    if !connected {
      return Cycle(StillDialing, backoff, [], [], [], [], []);
    }
    var deferred := [ControlConn];            // register the close of the connection (main.go:127)
    var handshake := Encode(remotePort);      // send the handshake (main.go:129)
    if !env.writeOk {
      return Cycle(WriteFailed, backoff, handshake, [], [], [], Unwind(deferred));
    }
    if !env.sessionOk {                       // build the session (main.go:133)
      return Cycle(SessionFailed, backoff, handshake, [], [], [], Unwind(deferred));
    }
    deferred := deferred + [MuxSession];      // register the close of the session (main.go:137)

    var attempts, proxied, refused := ServeStreams(localPort, env.localDials);
    return Cycle(AcceptFailed, backoff, handshake, attempts, proxied, refused, Unwind(deferred));
  }

  /** The accept loop of servePortOnce: for each accepted stream, dial the
      local service; a failed dial closes only that stream and the loop
      goes on; the loop ends when sess.Accept fails. */
  method ServeStreams(localPort: uint32, localDials: seq<bool>)
    returns (attempts: seq<LocalDial>, proxied: seq<nat>, refused: seq<nat>)
    ensures |attempts| == |localDials|
    ensures forall i :: 0 <= i < |localDials| ==> attempts[i] == LocalDial(i, localPort)
    ensures proxied == Positions(localDials, true)
    ensures refused == Positions(localDials, false)
  {
    attempts, proxied, refused := [], [], [];
    var stream := 0;
    while true
      invariant stream <= |localDials|
      invariant |attempts| == stream
      invariant forall i :: 0 <= i < stream ==> attempts[i] == LocalDial(i, localPort)
      invariant proxied == Positions(localDials[..stream], true)
      invariant refused == Positions(localDials[..stream], false)
      decreases |localDials| - stream
    {
      // accept the next stream; past the last outcome it fails (main.go:140-143)
      if stream == |localDials| {
        assert localDials[..stream] == localDials;
        return;
      }
      // dial the local service for this stream (main.go:144)
      attempts := attempts + [LocalDial(stream, localPort)];
      PositionsExtend(localDials, stream);
      if !localDials[stream] {
        refused := refused + [stream];        // close only this stream and go on (main.go:145-148)
      } else {
        proxied := proxied + [stream];        // hand the pair to a proxy (main.go:150)
      }
      stream := stream + 1;
    }
  }

  /** The sleeps of a sequence of cycles, in order: each cycle's reconnect
      delays, then the one-second cool-down once the cycle has returned. */
  function SleepLog(runs: seq<Cycle>): seq<nat>
  {
    if runs == [] then []
    else
      var last := runs[|runs| - 1];
      SleepLog(runs[..|runs| - 1]) + last.backoff + (if last.exit == StillDialing then [] else [1])
  }

  /** Everything a ServePort run promises: the cycles run back to back,
      each with the facts of one servePortOnce call, until the environments
      run out or a cycle is still reconnecting; the sleeps are SleepLog. */
  ghost predicate SupervisorOutcome(localPort: uint32, remotePort: uint32, cycles: seq<CycleEnv>,
                                    runs: seq<Cycle>, sleeps: seq<nat>)
  {
    && |runs| <= |cycles|
    && (forall k :: 0 <= k < |runs| ==> CycleOutcome(localPort, remotePort, cycles[k], runs[k]))
    && (forall k :: 0 <= k < |runs| - 1 ==> runs[k].exit != StillDialing)
    && (|runs| < |cycles| ==> |runs| > 0 && runs[|runs| - 1].exit == StillDialing)
    && sleeps == SleepLog(runs)
  }

  /** client.ServePort: run cycles for ever, sleeping one second after each,
      whatever it returned. `cycles` gives the environment of successive
      cycles; the model stops when they run out or when a cycle's
      reconnect is still retrying. */
  method ServePort(localPort: uint32, remotePort: uint32, cycles: seq<CycleEnv>)
    returns (runs: seq<Cycle>, sleeps: seq<nat>)
    ensures SupervisorOutcome(localPort, remotePort, cycles, runs, sleeps)
  {
    runs, sleeps := [], [];
    while |runs| < |cycles|
      invariant |runs| <= |cycles|
      invariant forall k :: 0 <= k < |runs| ==> CycleOutcome(localPort, remotePort, cycles[k], runs[k])
      invariant forall k :: 0 <= k < |runs| ==> runs[k].exit != StillDialing
      invariant sleeps == SleepLog(runs)
    {
      var c := ServePortOnce(localPort, remotePort, cycles[|runs|]);
      assert (runs + [c])[..|runs|] == runs;
      runs := runs + [c];
      sleeps := sleeps + c.backoff;
      if c.exit == StillDialing {
        return;
      }
      sleeps := sleeps + [1];                 // the one-second cool-down (main.go:160)
    }
  }

  /** Every sleep of the supervisor is either the one-second cool-down or a
      reconnect delay in [2, 30]. */
  lemma {:induction false} SleepLogBounds(runs: seq<Cycle>)
    requires forall k :: 0 <= k < |runs| ==> runs[k].backoff == Backoff.Schedule(|runs[k].backoff|)
    ensures forall i :: 0 <= i < |SleepLog(runs)| ==> SleepLog(runs)[i] == 1 || 2 <= SleepLog(runs)[i] <= 30
  {
    if runs != [] {
      var init := runs[..|runs| - 1];
      var last := runs[|runs| - 1];
      SleepLogBounds(init);
      Backoff.ScheduleShape(|last.backoff|);
    }
  }

  /** The number of cycles that returned. */
  function Completed(runs: seq<Cycle>): nat
  {
    if runs == [] then 0
    else Completed(runs[..|runs| - 1]) + (if runs[|runs| - 1].exit == StillDialing then 0 else 1)
  }

  /** The one-second sleeps are exactly the cool-downs between cycles: one
      per cycle that returned, whatever it returned, and no reconnect delay
      is ever that short. */
  lemma {:induction false} CoolDownsCountCycles(runs: seq<Cycle>)
    requires forall k :: 0 <= k < |runs| ==> runs[k].backoff == Backoff.Schedule(|runs[k].backoff|)
    ensures multiset(SleepLog(runs))[1] == Completed(runs)
  {
    if runs != [] {
      var init := runs[..|runs| - 1];
      var last := runs[|runs| - 1];
      CoolDownsCountCycles(init);
      Backoff.ScheduleShape(|last.backoff|);
      assert 1 !in last.backoff;
    }
  }

  /** Backoff does not carry across cycles: every cycle that failed to dial
      at least once starts again from the 2-second delay. */
  lemma BackoffResets(localPort: uint32, remotePort: uint32, cycles: seq<CycleEnv>, runs: seq<Cycle>, k: nat)
    requires |runs| <= |cycles|
    requires forall j :: 0 <= j < |runs| ==> CycleOutcome(localPort, remotePort, cycles[j], runs[j])
    requires k < |runs| && |cycles[k].relayDials| > 0 && !cycles[k].relayDials[0]
    ensures runs[k].backoff != [] && runs[k].backoff[0] == 2
  {
    assert Backoff.Pow2(1) == 2;
  }

  /** The port the hidden side's handshake names is the port the relay
      hands to net.Listen: whatever bytes follow on the connection, the relay's read of
      the handshake yields remotePort and leaves those bytes for the
      session. */
  lemma HandshakeAgreement(localPort: uint32, remotePort: uint32, env: CycleEnv, c: Cycle, rest: seq<byte>)
    requires CycleOutcome(localPort, remotePort, env, c)
    requires c.exit != StillDialing
    ensures ReadPort(c.handshake + rest) == Ok((remotePort, rest))
  {
    HandshakeRoundTrip(remotePort, rest);
  }
}
