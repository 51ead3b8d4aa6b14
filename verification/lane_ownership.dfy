/** From queue creation to the worker that polls a lane, over any sequence of scheduler activity. */
module LaneOwnership {
  import opened HrunTypes
  import opened Scheduler
  import opened SchedulerProofs
  import Balance

  /** The scheduler, and per worker the batches handed over but not merged, and the lanes polled. */
  datatype System = System(sched: Sched, polls: seq<seq<seq<WorkEntry>>>, works: seq<seq<WorkEntry>>)

  /** Each hand-out is one PollQueues call with a one-element batch. */
  function Deliver(polls: seq<seq<seq<WorkEntry>>>, hands: seq<Hand>): (r: seq<seq<seq<WorkEntry>>>)
    ensures |r| == |polls|
    decreases hands
  {
    if hands == [] then polls
    else if hands[0].worker >= |polls| then Deliver(polls, hands[1..])
    else Deliver(polls[hands[0].worker := polls[hands[0].worker] + [[hands[0].entry]]], hands[1..])
  }

  datatype Step =
    | Create(slot: nat, info: seq<PriorityInfo>)
    | BootAdmin(slot: nat)
    | RunSchedule
    | Merge(worker: nat)

  function Advance(sys: System, sched': Sched): System {
    var hands := if |sys.sched.handed| <= |sched'.handed| then sched'.handed[|sys.sched.handed|..] else [];
    sys.(sched := sched', polls := Deliver(sys.polls, hands))
  }

  function Apply(workers: nat, sys: System, st: Step): System
    requires workers >= 2
  {
    match st
    case Create(slot, info) => sys.(sched := CreateQueue(sys.sched, slot, info))
    case BootAdmin(slot) =>
      if slot < |sys.sched.queues| && sys.sched.queues[slot].groups != []
      then Advance(sys, ScheduleGroup(workers, sys.sched, slot, 0))
      else sys
    case RunSchedule => Advance(sys, ScheduleQueues(workers, sys.sched, 0))
    case Merge(w) =>
      if w < |sys.polls| && w < |sys.works| then
        sys.(works := sys.works[w := sys.works[w] + Flatten(sys.polls[w])], polls := sys.polls[w := []])
      else sys
  }

  function ApplySteps(workers: nat, sys: System, steps: seq<Step>): System
    requires workers >= 2
    decreases steps
  {
    if steps == [] then sys else ApplySteps(workers, Apply(workers, sys, steps[0]), steps[1..])
  }

  function Initial(workers: nat, slots: nat): System {
    System(Sched(seq(slots, _ => Queue(true, [])), 0, []), seq(workers, _ => []), seq(workers, _ => []))
  }

  /** The entries given to worker `w`, in order. */
  function HandedTo(handed: seq<Hand>, w: nat): seq<WorkEntry> {
    if handed == [] then []
    else
      var last := handed[|handed| - 1];
      HandedTo(handed[..|handed| - 1], w) + if last.worker == w then [last.entry] else []
  }

  // ---------------------------------------------------------------- conservation

  lemma HandedToAppend(handed: seq<Hand>, h: Hand, w: nat)
    ensures HandedTo(handed + [h], w) == HandedTo(handed, w) + if h.worker == w then [h.entry] else []
  {
    assert (handed + [h])[..|handed + [h]| - 1] == handed;
  }

  lemma {:induction false} FlattenAppend(batches: seq<seq<WorkEntry>>, batch: seq<WorkEntry>)
    ensures Flatten(batches + [batch]) == Flatten(batches) + batch
    decreases batches
  {
    if batches == [] {
      assert [batch][1..] == [];
    } else {
      FlattenAppend(batches[1..], batch);
      assert (batches + [batch])[1..] == batches[1..] + [batch];
    }
  }

  /** What worker `w` holds is what it was given. */
  ghost predicate Conserved(works: seq<seq<WorkEntry>>, polls: seq<seq<seq<WorkEntry>>>, handed: seq<Hand>) {
    |works| == |polls| && forall w | 0 <= w < |polls| :: works[w] + Flatten(polls[w]) == HandedTo(handed, w)
  }

  lemma {:induction false} DeliverConserves(
    works: seq<seq<WorkEntry>>, polls: seq<seq<seq<WorkEntry>>>, handed: seq<Hand>, hands: seq<Hand>)
    requires Conserved(works, polls, handed) && forall i | 0 <= i < |hands| :: hands[i].worker < |polls|
    ensures Conserved(works, Deliver(polls, hands), handed + hands)
    decreases hands
  {
    if hands == [] {
      assert handed + hands == handed;
    } else {
      var h := hands[0];
      var polls' := polls[h.worker := polls[h.worker] + [[h.entry]]];
      forall w | 0 <= w < |polls'| ensures works[w] + Flatten(polls'[w]) == HandedTo(handed + [h], w) {
        HandedToAppend(handed, h, w);
        assert works[w] + Flatten(polls[w]) == HandedTo(handed, w);
        if w == h.worker {
          FlattenAppend(polls[w], [h.entry]);
        }
      }
      DeliverConserves(works, polls', handed + [h], hands[1..]);
      assert handed + hands == (handed + [h]) + hands[1..];
    }
  }

  ghost predicate Inv(workers: nat, sys: System)
    requires workers >= 2
  {
    && SchedulerProofs.Inv(workers, sys.sched)
    && |sys.polls| == workers && Conserved(sys.works, sys.polls, sys.sched.handed)
  }

  // ---------------------------------------------------------------- scheduling only appends hand-outs

  lemma {:induction false} HandLanesAppends(workers: nat, s: Sched, q: nat, g: nat, from: nat, to: nat)
    requires workers >= 2 && q < |s.queues| && g < |s.queues[q].groups|
    ensures s.handed <= HandLanes(workers, s, q, g, from, to).handed
    decreases (to as int) - (from as int)
  {
    if from < to {
      HandLanesAppends(workers, HandLane(workers, s, q, g, from), q, g, from + 1, to);
    }
  }

  lemma {:induction false} GroupsAppend(workers: nat, s: Sched, q: nat, g: nat)
    requires workers >= 2 && q < |s.queues| && g <= |s.queues[q].groups|
    ensures s.handed <= ScheduleGroups(workers, s, q, g).handed
    decreases |s.queues[q].groups| - g
  {
    if g < |s.queues[q].groups| {
      var grp := s.queues[q].groups[g];
      HandLanesAppends(workers, s, q, g, grp.numScheduled, grp.numLanes);
      GroupsAppend(workers, ScheduleGroup(workers, s, q, g), q, g + 1);
    }
  }

  lemma {:induction false} QueuesAppend(workers: nat, s: Sched, q: nat)
    requires workers >= 2 && q <= |s.queues|
    ensures s.handed <= ScheduleQueues(workers, s, q).handed
    decreases |s.queues| - q
  {
    if q < |s.queues| {
      if s.queues[q].isNull {
        QueuesAppend(workers, s, q + 1);
      } else {
        GroupsAppend(workers, s, q, 0);
        QueuesAppend(workers, ScheduleGroups(workers, s, q, 0), q + 1);
      }
    }
  }

  lemma AdvanceInv(workers: nat, sys: System, sched': Sched)
    requires workers >= 2 && Inv(workers, sys) && SchedulerProofs.Inv(workers, sched')
    requires sys.sched.handed <= sched'.handed
    ensures Inv(workers, Advance(sys, sched'))
  {
    var hands := sched'.handed[|sys.sched.handed|..];
    assert sched'.handed == sys.sched.handed + hands;
    forall i | 0 <= i < |hands| ensures hands[i].worker < |sys.polls| {
      assert hands[i] == sched'.handed[|sys.sched.handed| + i];
    }
    DeliverConserves(sys.works, sys.polls, sys.sched.handed, hands);
  }

  lemma StepInv(workers: nat, sys: System, st: Step)
    requires workers >= 2 && Inv(workers, sys)
    ensures Inv(workers, Apply(workers, sys, st))
  {
    match st {
      case Create(slot, info) => CreateQueueInv(workers, sys.sched, slot, info);
      case BootAdmin(slot) =>
        if slot < |sys.sched.queues| && sys.sched.queues[slot].groups != [] {
          var grp := sys.sched.queues[slot].groups[0];
          ScheduleGroupInv(workers, sys.sched, slot, 0);
          HandLanesAppends(workers, sys.sched, slot, 0, grp.numScheduled, grp.numLanes);
          AdvanceInv(workers, sys, ScheduleGroup(workers, sys.sched, slot, 0));
        }
      case RunSchedule =>
        ScheduleQueuesInv(workers, sys.sched, 0);
        QueuesAppend(workers, sys.sched, 0);
        AdvanceInv(workers, sys, ScheduleQueues(workers, sys.sched, 0));
      case Merge(w) =>
    }
  }

  lemma {:induction false} RunInv(workers: nat, sys: System, steps: seq<Step>)
    requires workers >= 2 && Inv(workers, sys)
    ensures Inv(workers, ApplySteps(workers, sys, steps))
    decreases steps
  {
    if steps != [] {
      StepInv(workers, sys, steps[0]);
      RunInv(workers, Apply(workers, sys, steps[0]), steps[1..]);
    }
  }

  lemma InitialInv(workers: nat, slots: nat)
    requires workers >= 2
    ensures Inv(workers, Initial(workers, slots))
  {
    var sys := Initial(workers, slots);
    assert forall e :: !HasEntry(sys.sched.handed, e) && !Due(sys.sched, 0, 0, 0, e);
  }

  // ---------------------------------------------------------------- theorems

  lemma {:induction false} HandedToHas(handed: seq<Hand>, w: nat, e: WorkEntry)
    ensures e in HandedTo(handed, w) <==> Hand(w, e) in handed
    decreases handed
  {
    if handed != [] {
      var last := handed[|handed| - 1];
      HandedToHas(handed[..|handed| - 1], w, e);
      assert handed == handed[..|handed| - 1] + [last];
    }
  }

  lemma {:induction false} HandedToDistinct(handed: seq<Hand>, w: nat)
    requires NoLaneTwice(handed)
    ensures forall i, j | 0 <= i < j < |HandedTo(handed, w)| :: HandedTo(handed, w)[i] != HandedTo(handed, w)[j]
    decreases handed
  {
    if handed != [] {
      var last := handed[|handed| - 1];
      var init := handed[..|handed| - 1];
      forall i: nat, j: nat ensures !Twice(init, i, j) { assert !Twice(handed, i, j); }
      HandedToDistinct(init, w);
      forall e | e in HandedTo(init, w) ensures e != last.entry {
        HandedToHas(init, w, e);
        var i :| 0 <= i < |init| && init[i] == Hand(w, e);
        assert handed[i] == init[i] && !Twice(handed, i, |handed| - 1);
      }
      var before, after := HandedTo(init, w), HandedTo(handed, w);
      forall i, j | 0 <= i < j < |after| ensures after[i] != after[j] {
        assert after[i] == before[i];
        if j < |before| { assert after[j] == before[j]; } else { assert after[i] in before; }
      }
    }
  }

  /** Everything worker `w` polls or is about to poll. */
  function Lanes(sys: System, w: nat): seq<WorkEntry>
    requires w < |sys.works| && w < |sys.polls|
  {
    sys.works[w] + Flatten(sys.polls[w])
  }

  /** The lane counts as scheduled in its group. */
  predicate Scheduled(s: Sched, e: WorkEntry) {
    ValidEntry(s, e) && e.lane < s.queues[e.queue].groups[e.prio].numScheduled
  }

  /**
   * After any queue creations, scheduler runs and merges with at least two workers: a scheduled lane
   * is with exactly one worker, at exactly one place of what that worker polls or will poll; low
   * priority lanes (the admin lanes among them) are with worker 0 and all others are not; no lane
   * that is not scheduled is with anybody.
   */
  lemma EveryLaneHasOneWorker(workers: nat, slots: nat, steps: seq<Step>)
    requires workers >= 2
    ensures
      var sys := ApplySteps(workers, Initial(workers, slots), steps);
      && |sys.works| == |sys.polls| == workers
      && (forall e :: Scheduled(sys.sched, e) <==> exists w :: 0 <= w < workers && e in Lanes(sys, w))
      && (forall e, w, v | 0 <= w < workers && 0 <= v < workers && e in Lanes(sys, w) && e in Lanes(sys, v) :: w == v)
      && (forall e, w | 0 <= w < workers && e in Lanes(sys, w) ::
            ValidEntry(sys.sched, e) && (w == 0 <==> Low(sys.sched, e)))
      && (forall w, i, j | 0 <= w < workers && 0 <= i < j < |Lanes(sys, w)| :: Lanes(sys, w)[i] != Lanes(sys, w)[j])
  {
    InitialInv(workers, slots);
    RunInv(workers, Initial(workers, slots), steps);
    var sys := ApplySteps(workers, Initial(workers, slots), steps);
    forall e, w | 0 <= w < workers
      ensures e in Lanes(sys, w) <==> Hand(w, e) in sys.sched.handed
    {
      HandedToHas(sys.sched.handed, w, e);
    }
    forall w | 0 <= w < workers
      ensures forall i, j | 0 <= i < j < |Lanes(sys, w)| :: Lanes(sys, w)[i] != Lanes(sys, w)[j]
    {
      HandedToDistinct(sys.sched.handed, w);
    }
    OwnersExact(workers, sys);
  }

  lemma HandedOnce(handed: seq<Hand>, e: WorkEntry, w: nat, v: nat)
    requires NoLaneTwice(handed) && Hand(w, e) in handed && Hand(v, e) in handed
    ensures w == v
  {
    var i: nat :| i < |handed| && handed[i] == Hand(w, e);
    var j: nat :| j < |handed| && handed[j] == Hand(v, e);
    assert !Twice(handed, i, j) && !Twice(handed, j, i);
  }

  lemma OwnersExact(workers: nat, sys: System)
    requires workers >= 2 && Inv(workers, sys)
    requires forall e, w | 0 <= w < workers :: e in Lanes(sys, w) <==> Hand(w, e) in sys.sched.handed
    ensures forall e :: Scheduled(sys.sched, e) <==> exists w :: 0 <= w < workers && e in Lanes(sys, w)
    ensures forall e, w, v | 0 <= w < workers && 0 <= v < workers && e in Lanes(sys, w) && e in Lanes(sys, v) :: w == v
    ensures forall e, w | 0 <= w < workers && e in Lanes(sys, w) ::
              ValidEntry(sys.sched, e) && (w == 0 <==> Low(sys.sched, e))
  {
    var handed := sys.sched.handed;
    forall e ensures Scheduled(sys.sched, e) <==> exists w :: 0 <= w < workers && e in Lanes(sys, w) {
      assert HasEntry(handed, e) <==> Due(sys.sched, 0, 0, 0, e);
      if HasEntry(handed, e) {
        var i :| 0 <= i < |handed| && handed[i].entry == e;
        assert handed[i] == Hand(handed[i].worker, e);
        assert e in Lanes(sys, handed[i].worker);
      }
      if w :| 0 <= w < workers && e in Lanes(sys, w) {
        var i :| 0 <= i < |handed| && handed[i] == Hand(w, e);
        assert HasEntry(handed, e);
      }
    }
    forall e, w, v | 0 <= w < workers && 0 <= v < workers && e in Lanes(sys, w) && e in Lanes(sys, v)
      ensures w == v
    {
      HandedOnce(handed, e, w, v);
    }
    forall e, w | 0 <= w < workers && e in Lanes(sys, w)
      ensures ValidEntry(sys.sched, e) && (w == 0 <==> Low(sys.sched, e))
    {
      var i :| 0 <= i < |handed| && handed[i] == Hand(w, e);
    }
  }

  /** A scheduler run leaves no lane of any existing queue unscheduled. */
  lemma ScheduleLeavesNothing(workers: nat, slots: nat, steps: seq<Step>, e: WorkEntry)
    requires workers >= 2
    requires
      var s := ApplySteps(workers, Initial(workers, slots), steps + [RunSchedule]).sched;
      ValidEntry(s, e) && e.lane < s.queues[e.queue].groups[e.prio].numLanes
    ensures Scheduled(ApplySteps(workers, Initial(workers, slots), steps + [RunSchedule]).sched, e)
  {
    InitialInv(workers, slots);
    RunInv(workers, Initial(workers, slots), steps);
    StepsThenOne(workers, Initial(workers, slots), steps, RunSchedule);
    var before := ApplySteps(workers, Initial(workers, slots), steps);
    ScheduleQueuesInv(workers, before.sched, 0);
  }

  lemma {:induction false} StepsThenOne(workers: nat, sys: System, steps: seq<Step>, st: Step)
    requires workers >= 2
    ensures ApplySteps(workers, sys, steps + [st]) == Apply(workers, ApplySteps(workers, sys, steps), st)
    decreases steps
  {
    if steps == [] {
      assert [st][1..] == [] && steps + [st] == [st];
    } else {
      StepsThenOne(workers, Apply(workers, sys, steps[0]), steps[1..], st);
      assert (steps + [st])[1..] == steps[1..] + [st];
    }
  }

  // ---------------------------------------------------------------- loads

  lemma {:induction false} LoadOfRotation(m: nat, rotation: seq<nat>, j: nat)
    requires m > 0 && j < m
    requires forall k | 0 <= k < |rotation| :: rotation[k] == k % U32_LIMIT % m + 1
    ensures multiset(rotation)[j + 1] == Balance.Load(m, |rotation|, j)
    decreases rotation
  {
    if rotation != [] {
      var init := rotation[..|rotation| - 1];
      LoadOfRotation(m, init, j);
      assert rotation == init + [rotation[|rotation| - 1]];
    }
  }

  lemma {:induction false} RotationCounts(handed: seq<Hand>, w: nat)
    requires w > 0
    ensures |HandedTo(handed, w)| == multiset(Rotation(handed))[w]
    decreases handed
  {
    if handed != [] {
      RotationCounts(handed[..|handed| - 1], w);
    }
  }

  /**
   * The lanes of worker j+1 number exactly the rotation's load of place j; so the workers 1..W-1 differ
   * by at most one lane as long as at most 2^32 lanes were assigned in rotation, or W-1 divides 2^32.
   */
  lemma LoadsBalanced(workers: nat, slots: nat, steps: seq<Step>, i: nat, j: nat)
    requires workers >= 2 && i < workers - 1 && j < workers - 1
    ensures
      var sys := ApplySteps(workers, Initial(workers, slots), steps);
      var total := |Rotation(sys.sched.handed)|;
      && |sys.works| == |sys.polls| == workers
      && |Lanes(sys, i + 1)| == Balance.Load(workers - 1, total, i)
      && (total <= U32_LIMIT || U32_LIMIT % (workers - 1) == 0 ==> |Lanes(sys, i + 1)| <= |Lanes(sys, j + 1)| + 1)
  {
    InitialInv(workers, slots);
    RunInv(workers, Initial(workers, slots), steps);
    var sys := ApplySteps(workers, Initial(workers, slots), steps);
    LoadOfWorker(workers, sys, i);
    LoadOfWorker(workers, sys, j);
    Balance.BalancedExactly(workers - 1, |Rotation(sys.sched.handed)|);
  }

  lemma LoadOfWorker(workers: nat, sys: System, i: nat)
    requires workers >= 2 && i < workers - 1 && |sys.polls| == workers
    requires Conserved(sys.works, sys.polls, sys.sched.handed)
    requires RotationOk(workers, sys.sched.count, Rotation(sys.sched.handed))
    ensures |Lanes(sys, i + 1)| == Balance.Load(workers - 1, |Rotation(sys.sched.handed)|, i)
  {
    RotationCounts(sys.sched.handed, i + 1);
    LoadOfRotation(workers - 1, Rotation(sys.sched.handed), i);
  }

  // ---------------------------------------------------------------- hashing to lanes

  /** The lane of a group that a hash selects. */
  function LaneOf(hash: u32, numLanes: u32): nat
    requires numLanes > 0
  {
    hash % numLanes
  }

  /** A queue's lanes, per priority; Emplace appends to the lane the hash selects and to no other. */
  class MultiQueue {
    var groups: seq<seq<seq<nat>>>

    constructor (lanes: seq<u32>)
      ensures |groups| == |lanes|
      ensures forall i | 0 <= i < |lanes| :: groups[i] == seq(lanes[i] as int, _ => [])
    {
      var gs: seq<seq<seq<nat>>> := [];
      for i := 0 to |lanes|
        invariant |gs| == i
        invariant forall k | 0 <= k < i :: gs[k] == seq(lanes[k] as int, _ => [])
      {
        gs := gs + [seq(lanes[i] as int, _ => [])];
      }
      groups := gs;
    }

    method Emplace(prio: nat, hash: u32, p: nat)
      requires prio < |groups| && 0 < |groups[prio]| < U32_LIMIT
      modifies this
      ensures
        var lane := LaneOf(hash, |old(groups[prio])|);
        && lane < |old(groups[prio])|
        && groups == old(groups)[prio := old(groups)[prio][lane := old(groups)[prio][lane] + [p]]]
    {
      var lane := hash % |groups[prio]|;
      groups := groups[prio := groups[prio][lane := groups[prio][lane] + [p]]];
    }
  }
}
