/** Values shared by both roles of the tunnel: the error-carrying result
    type, the resources a handler releases through `defer`, and two small
    functions over sequences of oracle outcomes. */
module Common {

  datatype Option<T> = None | Some(value: T)

  datatype Result<T, E> = Ok(value: T) | Err(error: E)

  /** The resources a tunnel handler registers a deferred Close for:
      the raw control connection, the listener net.Listen returned for the
      negotiated port (relay only) and the multiplexed session. */
  datatype Resource = ControlConn | PortListener | MuxSession

  /** Go runs a function's deferred calls last-in first-out when it
      returns: given the registrations in the order they were made, the
      order in which the deferred closes execute. */
  function Unwind<T>(registered: seq<T>): (executed: seq<T>)
    ensures |executed| == |registered|
    ensures forall k :: 0 <= k < |registered| ==> executed[k] == registered[|registered| - 1 - k]
  {
    if registered == [] then []
    else [registered[|registered| - 1]] + Unwind(registered[..|registered| - 1])
  }

  /** Length of the longest prefix of `s` made only of `true`: the number
      of loop rounds that succeed before the first failing outcome. */
  function LeadingTrue(s: seq<bool>): (n: nat)
    ensures n <= |s|
    ensures forall k :: 0 <= k < n ==> s[k]
    ensures n < |s| ==> !s[n]
  {
    if s == [] || !s[0] then 0 else 1 + LeadingTrue(s[1..])
  }

  /** The positions of `s` holding `b`, in increasing order. */
  function Positions(s: seq<bool>, b: bool): (ps: seq<nat>)
    ensures forall k :: 0 <= k < |ps| ==> ps[k] < |s| && s[ps[k]] == b
    ensures forall j, k :: 0 <= j < k < |ps| ==> ps[j] < ps[k]
    ensures forall i :: 0 <= i < |s| && s[i] == b ==> i in ps
  {
    if s == [] then []
    else Positions(s[..|s| - 1], b) + (if s[|s| - 1] == b then [|s| - 1] else [])
  }

  /** Every position holds exactly one of the two values, so the two
      position lists split the whole index range between them. */
  lemma {:induction false} PositionsPartition(s: seq<bool>)
    ensures |Positions(s, true)| + |Positions(s, false)| == |s|
  {
    if s != [] {
      PositionsPartition(s[..|s| - 1]);
    }
  }

  /** One more element extends the position list of its own value and
      leaves the other one alone. */
  lemma PositionsExtend(s: seq<bool>, n: nat)
    requires n < |s|
    ensures Positions(s[..n + 1], s[n]) == Positions(s[..n], s[n]) + [n]
    ensures Positions(s[..n + 1], !s[n]) == Positions(s[..n], !s[n])
  {
    assert s[..n + 1][..n] == s[..n];
  }
}
