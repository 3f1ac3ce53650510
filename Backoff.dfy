/** The reconnect delay schedule of the hidden side. The counter starts at
    1 and is doubled, then capped at 30, BEFORE each sleep, so after the
    k-th consecutive failed dial the sleep lasts min(2^k, 30) seconds:
    2, 4, 8, 16, 30, 30, ... */
module Backoff {

  /** The cap on the reconnect delay, in seconds. */
  const MaxDelay: nat := 30

  function Pow2(k: nat): nat
  {
    if k == 0 then 1 else 2 * Pow2(k - 1)
  }

  /** The value of the backoff counter after k failed dials of one
      reconnect call, which is also the k-th sleep (k >= 1). */
  function Delay(k: nat): nat
  {
    if Pow2(k) < MaxDelay then Pow2(k) else MaxDelay
  }

  /** The sleeps taken after the first k failed dials of one reconnect call. */
  function Schedule(k: nat): seq<nat>
  {
    seq(k, i requires 0 <= i => Delay(i + 1))
  }

  /** The counter update of the source (double, and clamp to 30 once the
      doubled value reaches 30) carries Delay(k) to Delay(k + 1). */
  lemma DelayStep(k: nat)
    ensures Delay(k + 1) == if Delay(k) * 2 >= MaxDelay then MaxDelay else Delay(k) * 2
  {
  }

  /** Every sleep lies in [2, 30]. */
  lemma {:induction false} DelayBounds(k: nat)
    requires k >= 1
    ensures 2 <= Delay(k) <= MaxDelay
  {
    if k > 1 {
      DelayBounds(k - 1);
      DelayStep(k - 1);
    }
  }

  /** Later sleeps are never shorter than earlier ones. */
  lemma {:induction false} DelayMonotone(j: nat, k: nat)
    requires j <= k
    ensures Delay(j) <= Delay(k)
    decreases k - j
  {
    if j < k {
      DelayStep(j);
      DelayMonotone(j + 1, k);
    }
  }

  /** From the fifth failure on, every sleep is the 30-second cap. */
  lemma {:induction false} DelaySaturates(k: nat)
    requires k >= 5
    ensures Delay(k) == MaxDelay
  {
    if k == 5 {
      assert Pow2(5) == 32;
    } else {
      DelaySaturates(k - 1);
      DelayStep(k - 1);
    }
  }

  /** The schedule opens 2, 4, 8, 16, 30, 30. */
  lemma ScheduleOpening()
    ensures Schedule(6) == [2, 4, 8, 16, 30, 30]
  {
    assert Pow2(4) == 16;
    assert Pow2(5) == 32;
    assert Pow2(6) == 64;
  }

  /** A whole schedule lies in [2, 30] and never decreases. */
  lemma ScheduleShape(k: nat)
    ensures forall i :: 0 <= i < k ==> 2 <= Schedule(k)[i] <= MaxDelay
    ensures forall i, j :: 0 <= i <= j < k ==> Schedule(k)[i] <= Schedule(k)[j]
  {
    forall i | 0 <= i < k
      ensures 2 <= Schedule(k)[i] <= MaxDelay
    {
      DelayBounds(i + 1);
    }
    forall i, j | 0 <= i <= j < k
      ensures Schedule(k)[i] <= Schedule(k)[j]
    {
      DelayMonotone(i + 1, j + 1);
    }
  }

  /** A schedule of one reconnect call is a prefix of any longer one: the
      delays depend only on how many dials have failed in this call. */
  lemma SchedulePrefix(j: nat, k: nat)
    requires j <= k
    ensures Schedule(k)[..j] == Schedule(j)
  {
  }
}
