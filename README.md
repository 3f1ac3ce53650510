# rev: a reverse TCP tunnel, modelled in Dafny

`rev` lets a process that cannot accept inbound connections (the hidden
side) expose local TCP services through a publicly reachable relay. The
hidden side dials the relay. It sends the remote port it wants exposed as a
4-byte big-endian handshake. Then it turns the connection into a yamux
session in the stream-accepting role. The relay asks `net.Listen` for a
listener on that port (port 0 lets it pick a free one). For each external
connection the listener accepts, the relay opens one stream and joins the
two with a proxy. The hidden side dials its local
service for every stream it accepts. When the session dies, it reconnects
with capped exponential backoff.

This project models the sequential decision procedures of `main.go`, with
the network replaced by sequences of outcomes:

- `Handshake`: the uint32 port and its 4-byte network-order encoding
  (`binary.Write` / `binary.Read` with `binary.BigEndian`). A short read is
  an error: `io.EOF` when nothing arrived, `io.ErrUnexpectedEOF` after 1–3
  bytes.
- `Backoff`: the reconnect delay schedule, as a closed form with its
  properties.
- `Client`: `client.reconnect`, `client.servePortOnce` (split into the
  acquisition steps and the stream accept loop `ServeStreams`) and
  `client.ServePort`. They return a record of what happened: sleeps,
  handshake bytes, local dials, proxied and refused streams, and deferred
  closes.
- `Server`: `server.ServeConn`. It returns the exit reason, the negotiated
  port, the accept and `Open` counts, the proxied pairs, the leaked
  connections, the deferred closes, and whether the session-close watcher
  was started.
- `Common`: the results, the resources released by `defer`, Go's LIFO
  order for deferred calls (`Unwind`), and two functions over outcome
  sequences.

Oracles. For the relay, `arrivals[k]` says whether `sess.Open` succeeds for
the k-th accepted external connection. The `Accept` after the last listed
connection fails. In the source that happens when the listener is closed,
for instance by the session-close watcher. For the hidden side,
`localDials[i]` says whether dialing the local service succeeds for the i-th
accepted stream. The `Accept` after the last one fails. Dials of the relay
are a sequence of outcomes. If it runs out before a dial succeeds, the cycle
is reported as `StillDialing`, because the source retries for ever. Sleeps
are recorded as their lengths in seconds, and there is no clock.

The backoff counter starts at 1, but the code doubles it before the first
sleep. So after the k-th consecutive failed dial it sleeps min(2^k, 30)
seconds: 2, 4, 8, 16, 30, 30, … The first delay is 2 seconds, not 1.

When `sess.Open` fails on the relay, the external connection just accepted is
neither proxied nor closed before `ServeConn` returns. The model records this
connection in `Run.leaked`.

## Model

| member | source | states |
|---|---|---|
| `Handshake.Encode` | main.go:129 | the handshake is exactly 4 bytes, and read most significant byte first they give back the port |
| `Handshake.Uint32Of` | main.go:45 | four bytes decode to their big-endian value, which always fits a uint32 |
| `Handshake.ReadPort` | main.go:44-49 | the read succeeds exactly when at least 4 bytes arrive; it yields the big-endian value of the first four and leaves the rest unread; otherwise it fails with end-of-stream (nothing arrived) or unexpected end-of-stream (1 to 3 bytes) |
| `Handshake.HandshakeRoundTrip` | main.go:45 | reading the encoding of any port, followed by any bytes, gives that port back and consumes exactly the 4 handshake bytes |
| `Handshake.ReadPortEncode` | main.go:45 | any 4 bytes the relay reads are the encoding of the port they decode to |
| `Handshake.EncodeInjective` | main.go:129 | distinct ports have distinct encodings |
| `Common.Unwind` | main.go:43-67 | deferred closes run in reverse order of registration, each exactly once |
| `Common.LeadingTrue` | main.go:74-87 | the number of loop rounds before the first failing outcome: every earlier outcome succeeded, and the next one (if any) failed |
| `Common.Positions` | main.go:139-151 | the indices holding a given outcome, strictly increasing, each index with that outcome, and every such index included |
| `Common.PositionsPartition` | main.go:139-151 | the successful and failed indices together account for every element |
| `Backoff.DelayStep` | main.go:117-120 | doubling the counter and capping it at 30 turns the delay after k failures into the delay after k+1 failures |
| `Backoff.DelayBounds` | main.go:111-121 | every backoff sleep lies between 2 and 30 seconds |
| `Backoff.DelayMonotone` | main.go:112-122 | later backoff sleeps are never shorter than earlier ones |
| `Backoff.DelaySaturates` | main.go:118-120 | from the fifth consecutive failure on, every sleep is the 30-second cap |
| `Backoff.ScheduleOpening` | main.go:111-121 | the schedule begins 2, 4, 8, 16, 30, 30 |
| `Backoff.ScheduleShape` | main.go:111-121 | a whole schedule lies in [2, 30] and never decreases |
| `Backoff.SchedulePrefix` | main.go:110-111 | a shorter schedule is a prefix of a longer one: the delays depend only on how many dials have failed in the current call |
| `Client.Reconnect` | main.go:110-123 | it returns a connection exactly when some dial succeeds, namely the first successful dial; before that it sleeps once per failed dial, and the k-th sleep is min(2^k, 30) seconds starting again from the initial counter of 1 |
| `Client.ServePortOnce` | main.go:125-152 | the reconnect facts; the handshake written is the encoding of remotePort; a write failure or session failure returns before any stream is served and closes only the connection; otherwise every accepted stream gets one local dial with localPort, in order, dial successes are proxied, dial failures are closed, the loop ends only at an Accept error, and teardown closes the session, then the connection |
| `Client.ServeStreams` | main.go:139-151 | one local dial per accepted stream, in arrival order; the streams with successful dials are exactly the proxied ones, and the failed ones are exactly the refused ones, so a failed dial never stops later streams from being served |
| `Client.ServePort` | main.go:154-162 | it runs cycles back to back, each meeting the one-cycle facts; it stops only at a cycle still reconnecting; the sleeps are each cycle's backoff followed by a 1-second cool-down after every cycle that returned, whatever it returned |
| `Client.SleepLogBounds` | main.go:154-162 | every supervisor sleep is either the 1-second cool-down or a backoff delay in [2, 30] |
| `Client.CoolDownsCountCycles` | main.go:155-161 | the number of 1-second sleeps equals the number of cycles that returned |
| `Client.BackoffResets` | main.go:155-156 | every cycle whose first dial fails sleeps 2 seconds first: backoff never carries over from an earlier cycle |
| `Client.HandshakeAgreement` | main.go:129 | whatever bytes follow on the connection, the relay reads back remotePort from the hidden side's handshake |
| `Server.ServeConn` | main.go:42-88 | a read shorter than 4 bytes returns before any listener is bound; net.Listen is called with the decoded port; each accepted external connection causes exactly one Open; the loop stops at the first Accept error or first Open error; the k-th accepted connection is proxied with the k-th stream, and proxies equal successful Opens; the connection whose Open failed is left unclosed; the deferred closes run in the order session (if created), listener (if bound), control connection (always); the watcher that closes the listener again when the session closes is started exactly when a session was created |
| `Server.TeardownComplete` | main.go:43-67 | on every exit path the deferred close of the control connection runs, and runs last of the deferred closes; the listener is closed if and only if it was bound, once more by the watcher once a session exists; the session is closed if and only if it was created; no deferred close runs twice |
| `Server.AcceptedAccountedFor` | main.go:74-87 | Opens equal accepted connections, which equal proxied plus left-over connections; at most one is left over; the k-th proxy pairs the k-th connection with the k-th stream, and its Open succeeded |

## Left out

- `ProxyConn` (main.go:23-37): the two concurrent `io.Copy` goroutines and the `sync.WaitGroup`. Modelled only as the event of handing a pair to a proxy.
- The session-close watcher goroutine (main.go:69-72) runs concurrently. The model records only that it is started (`Run.watcherClose`), and so that it closes the listener a second time. Its effect on the loop is the failing `Accept` at the end of the arrival sequence.
- Server.TeardownComplete: "no close runs twice" and "the control connection is closed last" cover the deferred closes only. The watcher's second `l.Close()` (main.go:71) happens on every exit with a session. It runs once the session closes, at the latest when the deferred `sess.Close()` runs. It may come after the deferred `conn.Close()`, and the model does not order it against the deferred closes.
- Handshake.ReadPort: the model sees only the bytes that arrive before the control connection ends. A read error other than end-of-stream, such as a connection reset before 4 bytes, is reported as `EndOfStream` or `UnexpectedEndOfStream`. The control flow is the same, because the source only logs the cause (main.go:47).
- yamux sessions and streams, `net.Dial`, `net.Listen`, `Accept`, `Read` and `Write`: foreign library and socket I/O. They are replaced by outcome sequences and booleans. `yamux.Client` and `yamux.Server` with a nil configuration have an error branch in the code, and the model keeps it as an oracle.
- `time.Sleep`: no clock. Only the lengths of the sleeps are recorded.
- `runserver`'s outer accept loop, `runclient`'s `fmt.Sscanf("%d:%d")` parsing, `pflag` flags and `log` output (main.go:90-105, main.go:164-184): configuration, logging and trivial plumbing.
- The listen address built with `strconv.Itoa` (main.go:52). The source checks no port range on the uint32, so a port above 65535 reaches `net.Listen` and shows up only as `listenOk` being false. A port of 0 makes `net.Listen` pick a free port, so the listener is then not bound on the decoded port. The model records only the port handed to `net.Listen`.
- Server.ServeConn and Client.ServeStreams: each accept loop is modelled over a finite sequence of outcomes that ends in an `Accept` error. A relay or hidden side that keeps accepting for ever is seen only through finite prefixes of its run.
- Client.Reconnect: the source retries for ever. The model covers a finite prefix of dial outcomes and reports a cycle that exhausts them as `StillDialing`.
- Client.ServePortOnce: after a failed handshake write, the model records the four bytes handed to the write. It does not model how many of them reached the relay.
- The end-to-end properties that need the multiplexer to carry streams between the two roles are left out, for example that N external connections lead to N local dials. Each side's half is stated separately.
