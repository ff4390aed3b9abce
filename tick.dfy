/** The bookkeeping of one tick of the default update controller: which
    components still owe their `done()` to the tick signal, and when the
    tick signal can reach zero. */
module TickSpec {
  import opened Latches


  /** A workspace component as the engine sees it: a name (its identity in
      notifications), whether its update is on, and how many update parts it
      splits into. */
  datatype Component = Component(name: string, updateOn: bool, parts: nat)

  /** Whether a component that has been handed to `updateComponent` still
      owes its `done()` to the tick signal, given the count of its
      per-component signal. A disabled component signals at once; an enabled
      one signals when its per-component count reaches zero through a part's
      `done()`, which never happens if it has no parts. */
  predicate Owes(c: Component, partsCount: nat)
  {
    c.updateOn && (c.parts == 0 || partsCount > 0)
  }

  function Bit(b: bool): (r: nat)
  {
    if b then 1 else 0
  }

  /** Number of components in `snap` that still owe their `done()`, where
      `counts[i]` is the count of component i's per-component signal. */
  function Owing(snap: seq<Component>, counts: seq<nat>): (n: nat)
    requires |counts| == |snap|
    ensures n <= |snap|
  {
    if snap == [] then 0
    else
      var last := |snap| - 1;
      Owing(snap[..last], counts[..last]) + Bit(Owes(snap[last], counts[last]))
  }

  /** Every enabled component of the snapshot has at least one update part. */
  predicate AllEnabledHaveParts(snap: seq<Component>)
  {
    forall i :: 0 <= i < |snap| && snap[i].updateOn ==> snap[i].parts >= 1
  }

  /** Handing one more component over extends the count by that component. */
  lemma OwingExtend(snap: seq<Component>, counts: seq<nat>, k: nat)
    requires |counts| == |snap| && k < |snap|
    ensures Owing(snap[..k + 1], counts[..k + 1])
         == Owing(snap[..k], counts[..k]) + Bit(Owes(snap[k], counts[k]))
  {
    assert snap[..k + 1][..k] == snap[..k];
    assert counts[..k + 1][..k] == counts[..k];
  }

  /** Changing one per-component count changes what is owed by at most that
      component's own contribution. */
  lemma {:induction false} OwingUpdate(snap: seq<Component>, counts: seq<nat>, j: nat, v: nat)
    requires |counts| == |snap| && j < |snap|
    ensures Owing(snap, counts[j := v]) + Bit(Owes(snap[j], counts[j]))
         == Owing(snap, counts) + Bit(Owes(snap[j], v))
  {
    var last := |snap| - 1;
    var counts' := counts[j := v];
    if j < last {
      assert counts'[..last] == counts[..last][j := v];
      OwingUpdate(snap[..last], counts[..last], j, v);
    } else {
      assert counts'[..last] == counts[..last];
    }
  }

  /** Nothing is owed exactly when no component owes. */
  lemma {:induction false} OwingZero(snap: seq<Component>, counts: seq<nat>)
    requires |counts| == |snap|
    ensures Owing(snap, counts) == 0 <==> forall i :: 0 <= i < |snap| ==> !Owes(snap[i], counts[i])
  {
    if snap != [] {
      var last := |snap| - 1;
      OwingZero(snap[..last], counts[..last]);
      assert forall i :: 0 <= i < last ==> snap[..last][i] == snap[i] && counts[..last][i] == counts[i];
    }
  }

  /** The two-level barrier of one tick: the snapshot, how many components
      the controller's loop has handed to `updateComponent` so far, the count
      of the tick signal, the count of each component's per-component signal
      (zero until it is handed over, and for a disabled component), and the
      parts submitted to the pool and not yet run, by component index. */
  datatype Barrier = Barrier(
    snapshot: seq<Component>,
    next: nat,
    tickCount: nat,
    partCounts: seq<nat>,
    pending: multiset<nat>)
  {
    /** Every component not yet handed over counts one on the tick signal,
        every handed-over component that still owes counts one, and each
        per-component count equals the number of that component's parts
        still waiting in the pool. */
    ghost predicate Valid()
    {
      && |partCounts| == |snapshot|
      && next <= |snapshot|
      && (forall i :: i in pending ==> 0 <= i < |snapshot|)
      && (forall i :: 0 <= i < |snapshot| ==> pending[i] == partCounts[i] <= snapshot[i].parts)
      && (forall i :: 0 <= i < |snapshot| && (next <= i || !snapshot[i].updateOn) ==> partCounts[i] == 0)
      && tickCount == Owing(snapshot[..next], partCounts[..next]) + (|snapshot| - next)
    }

    /** The controller has handed over every component and waits in `await`. */
    predicate Awaiting()
    {
      next == |snapshot|
    }
  }

  /** The tick signal created by the default controller, `new
      LatchCompletionSignal(componentCount)`: sized to the whole snapshot,
      disabled components included, with nothing submitted yet. */
  function NewTick(snap: seq<Component>): (b: Barrier)
    ensures b.Valid()
    ensures b.snapshot == snap && b.next == 0 && b.pending == multiset{}
    ensures b.tickCount == |snap|
  {
    Barrier(snap, 0, |snap|, seq(|snap|, _ => 0), multiset{})
  }

  /** One turn of the controller's loop, `updateComponent`: a disabled
      component calls `done()` on the tick signal at once and submits
      nothing; an enabled one gets a per-component signal armed with its part
      count and submits every part. */
  function HandOver(b: Barrier): (r: Barrier)
    requires b.Valid() && b.next < |b.snapshot|
    ensures r.Valid()
    ensures r.snapshot == b.snapshot && r.next == b.next + 1
    ensures var c := b.snapshot[b.next];
      if c.updateOn then
        r.tickCount == b.tickCount && r.pending == b.pending + multiset{}[b.next := c.parts]
      else
        r.tickCount == b.tickCount - 1 && r.pending == b.pending
  {
    var k, c := b.next, b.snapshot[b.next];
    OwingExtend(b.snapshot, b.partCounts, k);
    if !c.updateOn then
      b.(next := k + 1, tickCount := CountDown(b.tickCount))
    else
      var counts := b.partCounts[k := c.parts];
      assert counts[..k] == b.partCounts[..k];
      OwingExtend(b.snapshot, counts, k);
      b.(next := k + 1, partCounts := counts, pending := b.pending + multiset{}[k := c.parts])
  }

  /** A pool thread runs one submitted part of component `i`; the part calls
      `done()` on the component's signal, which forwards `done()` to the tick
      signal when its count reaches zero. Only a handed-over enabled component
      can have a waiting part, and the tick signal is never counted down past
      zero. */
  function RunPart(b: Barrier, i: nat): (r: Barrier)
    requires b.Valid() && i in b.pending
    ensures r.Valid()
    ensures i < b.next && b.snapshot[i].updateOn
    ensures r.snapshot == b.snapshot && r.next == b.next
    ensures r.pending == b.pending - multiset{i}
    ensures b.partCounts[i] >= 1 && r.partCounts == b.partCounts[i := b.partCounts[i] - 1]
    ensures r.partCounts[i] == 0 ==> b.tickCount >= 1 && r.tickCount == b.tickCount - 1
    ensures r.partCounts[i] > 0 ==> r.tickCount == b.tickCount
  {
    var k := b.next;
    var (c, forwards) := PartDone(b.partCounts[i]);
    var counts := b.partCounts[i := c];
    OwingUpdate(b.snapshot[..k], b.partCounts[..k], i, c);
    assert counts[..k] == b.partCounts[..k][i := c];
    b.(partCounts := counts,
       pending := b.pending - multiset{i},
       tickCount := if forwards then CountDown(b.tickCount) else b.tickCount)
  }

  /** `await` returns only after every component has signalled and every
      submitted part of the tick has run. */
  lemma AwaitReturnsAfterAllParts(b: Barrier)
    requires b.Valid() && b.Awaiting() && b.tickCount == 0
    ensures b.pending == multiset{}
    ensures forall i :: 0 <= i < |b.snapshot| ==> !Owes(b.snapshot[i], b.partCounts[i])
  {
    assert b.snapshot[..b.next] == b.snapshot && b.partCounts[..b.next] == b.partCounts;
    OwingZero(b.snapshot, b.partCounts);
  }

  /** Once the controller waits and the pool has run every submitted part,
      the tick signal is at zero, so `await` returns, exactly when every
      enabled component had at least one part. */
  lemma DrainedTickOpensIff(b: Barrier)
    requires b.Valid() && b.Awaiting() && b.pending == multiset{}
    ensures b.tickCount == 0 <==> AllEnabledHaveParts(b.snapshot)
  {
    assert b.snapshot[..b.next] == b.snapshot && b.partCounts[..b.next] == b.partCounts;
    assert forall i :: 0 <= i < |b.snapshot| ==> b.partCounts[i] == 0 by {
      forall i | 0 <= i < |b.snapshot| ensures b.partCounts[i] == 0 {
        assert b.pending[i] == 0;
      }
    }
    TickOpensIff(b.snapshot, b.partCounts);
  }

  /** Once every per-component count is zero (every submitted part has run),
      the tick signal is at zero, so `await` returns, exactly when every
      enabled component had at least one part; an enabled component without
      parts holds the tick open for ever. */
  lemma TickOpensIff(snap: seq<Component>, counts: seq<nat>)
    requires |counts| == |snap|
    requires forall i :: 0 <= i < |snap| ==> counts[i] == 0
    ensures Owing(snap, counts) == 0 <==> AllEnabledHaveParts(snap)
  {
    OwingZero(snap, counts);
  }
}
