/** The counting behind `LatchCompletionSignal`, the completion signal of the
    workspace update engine, and behind the per-component signal that
    `updateComponent` derives from it. `LatchCompletionSignal` is not part of
    this model: its `done()` is taken to be `CountDownLatch.countDown()`, which
    leaves a count that is already zero at zero, and its count to be what
    `getLatch().getCount()` reads. The per-component signal overrides `done()` so that, after counting
    down, it forwards one `done()` to the tick signal whenever the count it
    reads back is zero or less. */
module Latches {

  /** `done()` on a plain signal: the new latch count. */
  function CountDown(count: nat): (r: nat)
  {
    if count > 0 then count - 1 else 0
  }

  /** `done()` on a per-component signal: the new latch count, and whether
      this call forwarded a `done()` to the tick signal. */
  function PartDone(count: nat): (r: (nat, bool))
  {
    var c := CountDown(count);
    (c, c == 0)
  }

  /** The latch count of a per-component signal armed with `count` after
      `calls` further `done()` calls. */
  function CountAfter(count: nat, calls: nat): (r: nat)
    decreases calls
  {
    if calls == 0 then count else CountAfter(PartDone(count).0, calls - 1)
  }

  /** How many `done()` calls a per-component signal armed with `count`
      forwards to the tick signal during `calls` further `done()` calls. */
  function Forwarded(count: nat, calls: nat): (r: nat)
    decreases calls
  {
    if calls == 0 then 0
    else
      var (c, forwards) := PartDone(count);
      (if forwards then 1 else 0) + Forwarded(c, calls - 1)
  }

  /** A component with k >= 1 parts, each calling `done()` once: the signal
      counts k down to 0 and forwards exactly one `done()`, on the last call
      and on no earlier one. */
  lemma {:induction false} LastPartForwardsOnce(k: nat, m: nat)
    requires 1 <= k && m <= k
    ensures CountAfter(k, m) == k - m
    ensures Forwarded(k, m) == (if m == k then 1 else 0)
  {
    if m > 0 && k > 1 {
      LastPartForwardsOnce(k - 1, m - 1);
    }
  }

  /** Every `done()` past the armed count forwards again, because the count
      saturates at zero and the forwarding test reads zero each time; a signal
      armed with zero forwards on every call. */
  lemma {:induction false} SurplusDoneForwardsAgain(k: nat, m: nat)
    ensures Forwarded(k, m) == (if m < k then 0 else m - k + (if k > 0 then 1 else 0))
  {
    if m > 0 {
      SurplusDoneForwardsAgain(PartDone(k).0, m - 1);
    }
  }
}
