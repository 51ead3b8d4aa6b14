/** The polling throttle of Worker::Run: lanes that are not low-latency are polled every 4096th call. */
module Throttle {
  import opened HrunTypes

  const PERIOD := 4096

  function Count(count: u32): u32 {
    (count + 1) % U32_LIMIT
  }

  predicate Polls(count: u32) {
    Count(count) % PERIOD == 0
  }

  /** The counter after `k` calls. */
  function CountAfter(count: u32, k: nat): u32 {
    if k == 0 then count else Count(CountAfter(count, k - 1))
  }

  /** One work-queue entry as far as throttling goes. */
  datatype Entry = Entry(lowLatency: bool, count: u32)

  /**
   * One call of Run over the work queue: which entries are polled, in order. A low-latency lane always
   * is; any other exactly if its counter, one up and wrapped at 32 bits, is a multiple of 4096.
   */
  method Run(entries: array<Entry>) returns (polled: seq<nat>)
    modifies entries
    ensures forall i | 0 <= i < entries.Length :: entries[i].lowLatency == old(entries[i]).lowLatency
    ensures forall i | 0 <= i < entries.Length ::
              entries[i].count == if old(entries[i]).lowLatency then old(entries[i]).count
                                  else (old(entries[i]).count + 1) % 0x1_0000_0000
    ensures forall i: nat | i in polled :: i < entries.Length
    ensures forall i: nat | i < entries.Length && old(entries[i]).lowLatency :: i in polled
    ensures forall i: nat | i < entries.Length && !old(entries[i]).lowLatency ::
              i in polled <==> (old(entries[i]).count + 1) % 0x1_0000_0000 % 4096 == 0
    ensures forall a, b | 0 <= a < b < |polled| :: polled[a] < polled[b]
  {
    polled := [];
    for i := 0 to entries.Length
      invariant forall k | i <= k < entries.Length :: entries[k] == old(entries[k])
      invariant forall k | 0 <= k < i :: entries[k].lowLatency == old(entries[k]).lowLatency
      invariant forall k | 0 <= k < i ::
                  entries[k].count == if old(entries[k]).lowLatency then old(entries[k]).count
                                      else (old(entries[k]).count + 1) % 0x1_0000_0000
      invariant forall k: nat | k in polled :: k < i
      invariant forall k: nat | k < i && old(entries[k]).lowLatency :: k in polled
      invariant forall k: nat | k < i && !old(entries[k]).lowLatency ::
                  k in polled <==> (old(entries[k]).count + 1) % 0x1_0000_0000 % 4096 == 0
      invariant forall a, b | 0 <= a < b < |polled| :: polled[a] < polled[b]
    {
      if !entries[i].lowLatency {
        entries[i] := entries[i].(count := Count(entries[i].count));
        if entries[i].count % PERIOD != 0 {
          continue;
        }
      }
      assert forall k | 0 <= k < |polled| :: polled[k] in polled;
      polled := polled + [i];
    }
  }

  lemma {:induction false} CountAfterExact(count: u32, k: nat)
    ensures CountAfter(count, k) == (count + k) % U32_LIMIT
  {
    if k > 0 {
      CountAfterExact(count, k - 1);
      CountStep(count + k - 1);
    }
  }

  /** The wrap-around of the 32-bit counter does not disturb the period: 4096 divides 2^32. */
  lemma WrapKeepsPeriod(x: nat)
    ensures x % U32_LIMIT % PERIOD == x % PERIOD
  {
    var q := x / U32_LIMIT;
    assert x == q * U32_LIMIT + x % U32_LIMIT;
    assert U32_LIMIT == 0x10_0000 * PERIOD;
  }

  /** Call k (counting from 0) polls the lane exactly when count + k + 1 is a multiple of the period. */
  lemma PollsWhen(count: u32, k: nat)
    ensures Polls(CountAfter(count, k)) <==> (count + k + 1) % 4096 == 0
  {
    CountAfterExact(count, k);
    CountAfterExact(count, k + 1);
    WrapKeepsPeriod(count + k + 1);
  }

  lemma MultiplesApart(x: nat, y: nat)
    requires x % PERIOD == 0 && y % PERIOD == 0 && x < y + PERIOD && y < x + PERIOD
    ensures x == y
  {
    assert x == x / PERIOD * PERIOD && y == y / PERIOD * PERIOD;
  }

  lemma NextMultiple(x: nat)
    ensures (x + (PERIOD - 1 - x % PERIOD) + 1) % PERIOD == 0
  {
    assert x == x / PERIOD * PERIOD + x % PERIOD;
    assert x + (PERIOD - 1 - x % PERIOD) + 1 == (x / PERIOD + 1) * PERIOD;
  }

  /** The call in the window beginning at `start` that polls the lane. */
  function PollingCall(count: u32, start: nat): (k: nat)
    ensures start <= k < start + 4096
  {
    start + (PERIOD - 1 - (count + start) % PERIOD)
  }

  /**
   * From any starting counter and at any later point, across wrap-around, a lane that is not
   * low-latency is polled in exactly one of any 4096 consecutive calls.
   */
  lemma OncePerWindow(count: u32, start: nat, i: nat)
    requires start <= i < start + 4096
    ensures Polls(CountAfter(count, i)) <==> i == PollingCall(count, start)
  {
    var k := PollingCall(count, start);
    NextMultiple(count + start);
    PollsWhen(count, k);
    PollsWhen(count, i);
    if (count + i + 1) % PERIOD == 0 {
      MultiplesApart(count + i + 1, count + k + 1);
    }
  }

  // ---------------------------------------------------------------- copies of a work entry drop the counter

  /**
   * The counter after a history of calls: element k says whether the entry was copied before call k,
   * as merging and growing the work queue do, and what value the copy left in its counter.
   */
  function CountWithCopies(count: u32, copies: seq<Option<u32>>): u32 {
    if copies == [] then count
    else
      var before := CountWithCopies(count, copies[..|copies| - 1]);
      var last := copies[|copies| - 1];
      Count(if last.Some? then last.value else before)
  }

  /** Call `k` of the history polls the lane. */
  predicate PolledAt(count: u32, copies: seq<Option<u32>>, k: nat)
    requires k < |copies|
  {
    CountWithCopies(count, copies[..k + 1]) % PERIOD == 0
  }

  /** The value left by the last copy, or the first value of the counter. */
  function LastLeft(count: u32, copies: seq<Option<u32>>): u32 {
    if copies == [] then count
    else
      var last := copies[|copies| - 1];
      if last.Some? then last.value else LastLeft(count, copies[..|copies| - 1])
  }

  /** The calls since the last copy. */
  function CallsSince(copies: seq<Option<u32>>): nat {
    if copies == [] then 0
    else if copies[|copies| - 1].Some? then 1
    else CallsSince(copies[..|copies| - 1]) + 1
  }

  lemma {:induction false} CountWithCopiesExact(count: u32, copies: seq<Option<u32>>)
    ensures CountWithCopies(count, copies) == (LastLeft(count, copies) + CallsSince(copies)) % U32_LIMIT
    decreases copies
  {
    if copies != [] && copies[|copies| - 1].None? {
      var init := copies[..|copies| - 1];
      CountWithCopiesExact(count, init);
      CountStep(LastLeft(count, init) + CallsSince(init));
    }
  }

  lemma CountStep(x: nat)
    ensures Count(x % U32_LIMIT) == (x + 1) % U32_LIMIT
  {}

  /** Whatever copies were made: a call polls exactly when the last value left plus the calls since is a multiple. */
  lemma PollsWhenCopied(count: u32, copies: seq<Option<u32>>, k: nat)
    requires k < |copies|
    ensures
      var past := copies[..k + 1];
      PolledAt(count, copies, k) <==> (LastLeft(count, past) + CallsSince(past)) % 4096 == 0
  {
    var past := copies[..k + 1];
    CountWithCopiesExact(count, past);
    WrapKeepsPeriod(LastLeft(count, past) + CallsSince(past));
  }

  lemma {:induction false} UncopiedCounts(count: u32, copies: seq<Option<u32>>, start: nat, n: nat)
    requires start + n <= |copies| && forall k | start <= k < start + n :: copies[k].None?
    ensures CountWithCopies(count, copies[..start + n]) == CountAfter(CountWithCopies(count, copies[..start]), n)
    decreases n
  {
    if n > 0 {
      var past := copies[..start + n];
      assert past[|past| - 1].None? && past[..|past| - 1] == copies[..start + n - 1];
      UncopiedCounts(count, copies, start, n - 1);
    }
  }

  /**
   * Whatever copies were made before and are made after: in any window of 4096 calls with no copy in it
   * the lane is polled exactly once.
   */
  lemma OncePerUncopiedWindow(count: u32, copies: seq<Option<u32>>, start: nat, i: nat)
    requires start <= i < start + 4096 <= |copies|
    requires forall k | start <= k < start + 4096 :: copies[k].None?
    ensures
      var now := CountWithCopies(count, copies[..start]);
      PolledAt(count, copies, i) <==> i == start + PollingCall(now, 0)
  {
    var now := CountWithCopies(count, copies[..start]);
    UncopiedCounts(count, copies, start, i + 1 - start);
    assert copies[..start + (i + 1 - start)] == copies[..i + 1];
    OncePerWindow(now, 0, i - start);
  }
}
