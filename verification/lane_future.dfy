/** What was assigned stays assigned: lanes and their workers over whole continuations of a run. */
module LaneFuture {
  import opened HrunTypes
  import opened Scheduler
  import opened SchedulerProofs
  import opened LaneOwnership
  import Balance

  /** Queues are never resized, groups never lose a scheduled lane, and no hand-out is ever taken back. */
  ghost predicate Stays(s: Sched, s': Sched) {
    s.handed <= s'.handed && |s'.queues| == |s.queues| && forall q: nat, g: nat :: GroupStays(s, s', q, g)
  }

  predicate GroupStays(s: Sched, s': Sched, q: nat, g: nat)
    requires |s'.queues| == |s.queues|
  {
    q < |s.queues| && g < |s.queues[q].groups| ==>
      && g < |s'.queues[q].groups| && s'.queues[q].groups[g].numLanes == s.queues[q].groups[g].numLanes
      && s'.queues[q].groups[g].prio == s.queues[q].groups[g].prio
      && s'.queues[q].groups[g].longRunning == s.queues[q].groups[g].longRunning
      && s.queues[q].groups[g].numScheduled <= s'.queues[q].groups[g].numScheduled
  }

  lemma StaysOn(s: Sched, s1: Sched, s2: Sched)
    requires Stays(s, s1) && Stays(s1, s2)
    ensures Stays(s, s2)
  {
    forall q: nat, g: nat ensures GroupStays(s, s2, q, g) {
      assert GroupStays(s, s1, q, g) && GroupStays(s1, s2, q, g);
    }
  }

  lemma ProgressStays(s: Sched, s': Sched)
    requires GroupsOk(s) && Progress(s, s') && s.handed <= s'.handed
    ensures Stays(s, s')
  {
    forall q: nat, g: nat ensures GroupStays(s, s', q, g) {}
  }

  lemma ProgressOn(s: Sched, s1: Sched, s2: Sched)
    requires Progress(s, s1) && Progress(s1, s2)
    ensures Progress(s, s2)
  {}

  lemma {:induction false} QueuesProgress(workers: nat, s: Sched, q: nat)
    requires workers >= 2 && SchedulerProofs.Inv(workers, s) && q <= |s.queues|
    ensures Progress(s, ScheduleQueues(workers, s, q))
    decreases |s.queues| - q
  {
    if q < |s.queues| {
      if s.queues[q].isNull {
        QueuesProgress(workers, s, q + 1);
      } else {
        var s1 := ScheduleGroups(workers, s, q, 0);
        ScheduleGroupsInv(workers, s, q, 0);
        QueuesProgress(workers, s1, q + 1);
        ProgressOn(s, s1, ScheduleQueues(workers, s1, q + 1));
      }
    }
  }

  lemma CreateStays(workers: nat, s: Sched, slot: nat, info: seq<PriorityInfo>)
    requires workers >= 2 && SchedulerProofs.Inv(workers, s)
    ensures Stays(s, CreateQueue(s, slot, info))
  {
    var s' := CreateQueue(s, slot, info);
    forall q: nat, g: nat ensures GroupStays(s, s', q, g) {}
  }

  lemma BootStays(workers: nat, s: Sched, slot: nat)
    requires workers >= 2 && SchedulerProofs.Inv(workers, s) && slot < |s.queues| && s.queues[slot].groups != []
    ensures Stays(s, ScheduleGroup(workers, s, slot, 0))
  {
    var grp := s.queues[slot].groups[0];
    assert GroupsOk(s);
    HandLanesAppends(workers, s, slot, 0, grp.numScheduled, grp.numLanes);
    forall q: nat, g: nat ensures GroupStays(s, ScheduleGroup(workers, s, slot, 0), q, g) {}
  }

  lemma StepStays(workers: nat, sys: System, st: Step)
    requires workers >= 2 && LaneOwnership.Inv(workers, sys)
    ensures Stays(sys.sched, Apply(workers, sys, st).sched)
  {
    match st {
      case Create(slot, info) => CreateStays(workers, sys.sched, slot, info);
      case BootAdmin(slot) =>
        if slot < |sys.sched.queues| && sys.sched.queues[slot].groups != [] {
          BootStays(workers, sys.sched, slot);
        } else {
          ItselfStays(sys.sched);
        }
      case RunSchedule =>
        QueuesProgress(workers, sys.sched, 0);
        QueuesAppend(workers, sys.sched, 0);
        ProgressStays(sys.sched, ScheduleQueues(workers, sys.sched, 0));
      case Merge(w) => ItselfStays(sys.sched);
    }
  }

  lemma ItselfStays(s: Sched)
    ensures Stays(s, s)
  {
    forall q: nat, g: nat ensures GroupStays(s, s, q, g) {}
  }

  lemma {:induction false} RunStays(workers: nat, sys: System, steps: seq<Step>)
    requires workers >= 2 && LaneOwnership.Inv(workers, sys)
    ensures Stays(sys.sched, ApplySteps(workers, sys, steps).sched)
    decreases steps
  {
    if steps == [] {
      ItselfStays(sys.sched);
    } else {
      var sys1 := Apply(workers, sys, steps[0]);
      LaneOwnership.StepInv(workers, sys, steps[0]);
      StepStays(workers, sys, steps[0]);
      RunStays(workers, sys1, steps[1..]);
      StaysOn(sys.sched, sys1.sched, ApplySteps(workers, sys1, steps[1..]).sched);
    }
  }

  lemma {:induction false} StepsThenMore(workers: nat, sys: System, a: seq<Step>, b: seq<Step>)
    requires workers >= 2
    ensures ApplySteps(workers, sys, a + b) == ApplySteps(workers, ApplySteps(workers, sys, a), b)
    decreases a
  {
    if a == [] {
      assert a + b == b;
    } else {
      var ab, sys1 := a + b, Apply(workers, sys, a[0]);
      assert ab[0] == a[0] && ab[1..] == a[1..] + b;
      StepsThenMore(workers, sys1, a[1..], b);
      assert ApplySteps(workers, sys, ab) == ApplySteps(workers, sys1, ab[1..]);
    }
  }

  /** What a worker has, it was handed. */
  lemma HasIffHanded(workers: nat, sys: System, e: WorkEntry, w: nat)
    requires workers >= 2 && LaneOwnership.Inv(workers, sys) && w < workers
    ensures e in Lanes(sys, w) <==> Hand(w, e) in sys.sched.handed
  {
    HandedToHas(sys.sched.handed, w, e);
  }

  /** `w` is the one worker that has lane `e`. */
  ghost predicate Owner(workers: nat, sys: System, e: WorkEntry, w: nat)
    requires |sys.works| == |sys.polls| == workers
  {
    w < workers && e in Lanes(sys, w) && forall v: nat | v < workers && e in Lanes(sys, v) :: v == w
  }

  /**
   * Two tasks with the same queue, priority and hash, emplaced at any two moments of any run, go to the
   * same lane, which exists at both; and a worker that has that lane at the first has it at the second,
   * no other worker having it at either. Once the lane is scheduled there is such a worker.
   */
  lemma SameHashSameWorker(
    workers: nat, slots: nat, steps: seq<Step>, more: seq<Step>, q: nat, prio: nat, hash: u32)
    requires workers >= 2
    requires
      var s := ApplySteps(workers, Initial(workers, slots), steps).sched;
      q < |s.queues| && prio < |s.queues[q].groups| && s.queues[q].groups[prio].numLanes > 0
    ensures
      var sys := ApplySteps(workers, Initial(workers, slots), steps);
      var sys' := ApplySteps(workers, Initial(workers, slots), steps + more);
      && |sys.works| == |sys.polls| == |sys'.works| == |sys'.polls| == workers
      && q < |sys'.sched.queues| && prio < |sys'.sched.queues[q].groups|
      && var lanes := sys.sched.queues[q].groups[prio].numLanes;
         var e := WorkEntry(q, prio, LaneOf(hash, lanes));
         && sys'.sched.queues[q].groups[prio].numLanes == lanes && e.lane < lanes
         && (forall w: nat | w < workers && e in Lanes(sys, w) ::
               Owner(workers, sys, e, w) && Owner(workers, sys', e, w))
         && (Scheduled(sys.sched, e) ==> exists w: nat :: w < workers && e in Lanes(sys, w))
  {
    var start := Initial(workers, slots);
    var sys := ApplySteps(workers, start, steps);
    var sys' := ApplySteps(workers, start, steps + more);
    InitialInv(workers, slots);
    RunInv(workers, start, steps);
    RunInv(workers, start, steps + more);
    StepsThenMore(workers, start, steps, more);
    RunStays(workers, sys, more);
    assert GroupStays(sys.sched, sys'.sched, q, prio);
    var e := WorkEntry(q, prio, LaneOf(hash, sys.sched.queues[q].groups[prio].numLanes));
    EveryLaneHasOneWorker(workers, slots, steps);
    EveryLaneHasOneWorker(workers, slots, steps + more);
    forall w: nat | w < workers && e in Lanes(sys, w) ensures e in Lanes(sys', w) {
      HasIffHanded(workers, sys, e, w);
      HasIffHanded(workers, sys', e, w);
    }
  }

  // ---------------------------------------------------------------- who is worker 0's, by how a queue was made

  /** `q` is the queue that the step after `before` makes from `info`. */
  ghost predicate Makes(workers: nat, slots: nat, before: seq<Step>, q: nat, info: seq<PriorityInfo>)
    requires workers >= 2
  {
    var s := ApplySteps(workers, Initial(workers, slots), before).sched;
    q < |s.queues| && s.queues[q].isNull && |info| < U32_LIMIT
  }

  /** The groups of a queue are forever what its description said, numbered by priority. */
  lemma GroupsAsDescribed(
    workers: nat, slots: nat, before: seq<Step>, q: nat, info: seq<PriorityInfo>, more: seq<Step>, g: nat)
    requires workers >= 2 && Makes(workers, slots, before, q, info) && g < |info|
    ensures
      var s := ApplySteps(workers, Initial(workers, slots), before + [Create(q, info)] + more).sched;
      && q < |s.queues| && g < |s.queues[q].groups|
      && s.queues[q].groups[g].prio == g && s.queues[q].groups[g].numLanes == info[g].numLanes
      && s.queues[q].groups[g].longRunning == info[g].longRunning
  {
    var start := Initial(workers, slots);
    var made := ApplySteps(workers, start, before + [Create(q, info)]);
    InitialInv(workers, slots);
    RunInv(workers, start, before + [Create(q, info)]);
    StepsThenOne(workers, start, before, Create(q, info));
    assert made.sched.queues[q] == Queue(false, NewGroups(info));
    StepsThenMore(workers, start, before + [Create(q, info)], more);
    RunStays(workers, made, more);
    assert GroupStays(made.sched, ApplySteps(workers, made, more).sched, q, g);
  }

  /**
   * Whenever later a lane of that queue is with a worker, it is with worker 0 exactly if its group was
   * described as long-running or is the first, priority 0; all other lanes are with the others.
   */
  lemma WorkerZeroExactly(
    workers: nat, slots: nat, before: seq<Step>, q: nat, info: seq<PriorityInfo>, more: seq<Step>,
    g: nat, lane: nat, w: nat)
    requires workers >= 2 && Makes(workers, slots, before, q, info) && g < |info| && w < workers
    ensures
      var sys := ApplySteps(workers, Initial(workers, slots), before + [Create(q, info)] + more);
      && |sys.works| == |sys.polls| == workers
      && (WorkEntry(q, g, lane) in Lanes(sys, w) ==> (w == 0 <==> info[g].longRunning || g == 0))
  {
    var sys := ApplySteps(workers, Initial(workers, slots), before + [Create(q, info)] + more);
    var e := WorkEntry(q, g, lane);
    GroupsAsDescribed(workers, slots, before, q, info, more, g);
    EveryLaneHasOneWorker(workers, slots, before + [Create(q, info)] + more);
    LowByFields(sys.sched, e);
    assert e in Lanes(sys, w) ==> (w == 0 <==> Low(sys.sched, e));
  }

  lemma LowByFields(s: Sched, e: WorkEntry)
    requires ValidEntry(s, e)
    ensures Low(s, e) <==> s.queues[e.queue].groups[e.prio].longRunning || s.queues[e.queue].groups[e.prio].prio == 0
  {}

  /** After the start-up step for the admin queue, all lanes of its first group are with worker 0 alone. */
  lemma AdminLanesWithWorkerZero(workers: nat, slots: nat, steps: seq<Step>, q: nat, lane: nat)
    requires workers >= 2
    requires
      var s := ApplySteps(workers, Initial(workers, slots), steps).sched;
      q < |s.queues| && s.queues[q].groups != [] && lane < s.queues[q].groups[0].numLanes
    ensures
      var sys := ApplySteps(workers, Initial(workers, slots), steps + [BootAdmin(q)]);
      && |sys.works| == |sys.polls| == workers
      && forall w: nat | w < workers :: WorkEntry(q, 0, lane) in Lanes(sys, w) <==> w == 0
  {
    var start := Initial(workers, slots);
    var before := ApplySteps(workers, start, steps);
    InitialInv(workers, slots);
    RunInv(workers, start, steps);
    StepsThenOne(workers, start, steps, BootAdmin(q));
    var sys := ApplySteps(workers, start, steps + [BootAdmin(q)]);
    var e := WorkEntry(q, 0, lane);
    BootSchedules(workers, before.sched, q, lane);
    assert sys.sched == ScheduleGroup(workers, before.sched, q, 0);
    LowIsWithZero(workers, slots, steps + [BootAdmin(q)], sys, e);
  }

  lemma LowIsWithZero(workers: nat, slots: nat, steps: seq<Step>, sys: System, e: WorkEntry)
    requires workers >= 2 && sys == ApplySteps(workers, Initial(workers, slots), steps)
    requires Scheduled(sys.sched, e) && Low(sys.sched, e)
    ensures |sys.works| == |sys.polls| == workers
    ensures forall w: nat | w < workers :: e in Lanes(sys, w) <==> w == 0
  {
    EveryLaneHasOneWorker(workers, slots, steps);
    var w: nat :| w < workers && e in Lanes(sys, w);
    assert w == 0;
  }

  lemma BootSchedules(workers: nat, s: Sched, q: nat, lane: nat)
    requires workers >= 2 && SchedulerProofs.Inv(workers, s) && q < |s.queues| && s.queues[q].groups != []
    requires lane < s.queues[q].groups[0].numLanes
    ensures
      var s' := ScheduleGroup(workers, s, q, 0);
      && Scheduled(s', WorkEntry(q, 0, lane)) && Low(s', WorkEntry(q, 0, lane))
  {
    assert GroupsOk(s);
  }

  // ---------------------------------------------------------------- which hashes share a lane

  /** Lane k is reached by hash k, and two hashes share a lane exactly if they differ by a multiple of the lanes. */
  lemma HashesShareLane(a: u32, b: u32, lanes: u32)
    requires lanes > 0
    ensures LaneOf(a, lanes) < lanes
    ensures a < lanes ==> LaneOf(a, lanes) == a
    ensures LaneOf(a, lanes) == LaneOf(b, lanes) <==> (a - b) % lanes == 0
  {
    var q, p := a / lanes, b / lanes;
    assert a == q * lanes + a % lanes && b == p * lanes + b % lanes;
    SameRemainder(a - b, q - p, a % lanes - b % lanes, lanes);
    if a < lanes {
      Balance.Quotient(lanes, a, 0, a);
    }
  }

  lemma SameRemainder(d: int, k: int, r: int, m: int)
    requires m > 0 && -m < r < m && d == k * m + r
    ensures r == 0 <==> d % m == 0
  {
    var j := d / m;
    assert d == j * m + d % m;
    if d % m == 0 {
      assert r == (j - k) * m;
      Multiples(j - k, m);
    } else {
      assert r == 0 ==> d == k * m;
      assert r == 0 ==> d % m == (k - j) * m;
      Multiples(k - j, m);
    }
  }

  lemma Multiples(x: int, m: int)
    requires m > 0
    ensures x >= 1 ==> x * m >= m
    ensures x <= -1 ==> x * m <= -m
  {}

  // ---------------------------------------------------------------- loads, exactly

  /** A group that is not of low priority adds one lane to the rotation per lane handed. */
  lemma {:induction false} RotationGrows(workers: nat, s: Sched, q: nat, g: nat, from: nat, to: nat)
    requires workers >= 2 && q < |s.queues| && g < |s.queues[q].groups| && from <= to
    requires !s.queues[q].groups[g].IsLowPriority()
    ensures |Rotation(HandLanes(workers, s, q, g, from, to).handed)| == |Rotation(s.handed)| + (to - from)
    decreases (to as int) - (from as int)
  {
    if from < to {
      var s1 := HandLane(workers, s, q, g, from);
      AppendRotation(s.handed, s1.handed[|s.handed|]);
      assert s1.handed == s.handed + [s1.handed[|s.handed|]];
      RotationGrows(workers, s1, q, g, from + 1, to);
    }
  }

  /** One queue with as many lanes as it takes to see the counter wrap. */
  function WrapInfo(): seq<PriorityInfo> {
    [PriorityInfo(0, false), PriorityInfo(U32_LIMIT - 1, false), PriorityInfo(2, false)]
  }

  lemma WrapRotation(workers: nat, s: Sched)
    requires workers >= 2 && s.handed == [] && s.queues == [Queue(false, NewGroups(WrapInfo()))]
    ensures |Rotation(ScheduleQueues(workers, s, 0).handed)| == U32_LIMIT + 1
  {
    var s1 := ScheduleGroup(workers, s, 0, 0);
    assert s1.handed == [] && s1.queues[0].groups[1] == LaneGroup(1, U32_LIMIT - 1, false, 0);
    var s2 := ScheduleGroup(workers, s1, 0, 1);
    RotationGrows(workers, s1, 0, 1, 0, U32_LIMIT - 1);
    assert s2.queues[0].groups[2] == LaneGroup(2, 2, false, 0);
    var s3 := ScheduleGroup(workers, s2, 0, 2);
    RotationGrows(workers, s2, 0, 2, 0, 2);
    ThreeGroups(workers, s, s1, s2, s3);
  }

  lemma ThreeGroups(workers: nat, s: Sched, s1: Sched, s2: Sched, s3: Sched)
    requires workers >= 2 && |s.queues| == 1 && !s.queues[0].isNull && |s.queues[0].groups| == 3
    requires s1 == ScheduleGroup(workers, s, 0, 0) && s2 == ScheduleGroup(workers, s1, 0, 1)
    requires s3 == ScheduleGroup(workers, s2, 0, 2)
    ensures ScheduleQueues(workers, s, 0) == s3
  {
    assert ScheduleGroups(workers, s3, 0, 3) == s3;
    assert ScheduleGroups(workers, s2, 0, 2) == s3;
    assert ScheduleGroups(workers, s1, 0, 1) == s3;
    assert ScheduleGroups(workers, s, 0, 0) == s3;
    assert ScheduleQueues(workers, s3, 1) == s3;
  }

  /** A run that assigns 2^32 + 1 lanes in rotation. */
  lemma WrappedRun(workers: nat) returns (steps: seq<Step>)
    requires workers >= 2
    ensures |Rotation(ApplySteps(workers, Initial(workers, 1), steps).sched.handed)| == U32_LIMIT + 1
  {
    var sys := Initial(workers, 1);
    var sys1 := Apply(workers, sys, Create(0, WrapInfo()));
    assert sys1.sched.queues == [Queue(false, NewGroups(WrapInfo()))];
    WrapRotation(workers, sys1.sched);
    steps := [Create(0, WrapInfo()), RunSchedule];
    var last := steps[1..];
    assert last == [RunSchedule] && last[1..] == [];
    assert ApplySteps(workers, sys1, last) == Apply(workers, sys1, RunSchedule);
  }

  /** In every run that assigns at most `t` lanes in rotation, workers 1..W-1 differ by at most one lane. */
  ghost predicate AlwaysBalanced(workers: nat, t: nat)
    requires workers >= 2
  {
    forall slots: nat, steps: seq<Step>, i: nat, j: nat :: BalancedRun(workers, t, slots, steps, i, j)
  }

  ghost predicate BalancedRun(workers: nat, t: nat, slots: nat, steps: seq<Step>, i: nat, j: nat)
    requires workers >= 2
  {
    var sys := ApplySteps(workers, Initial(workers, slots), steps);
    i < workers - 1 && j < workers - 1 && |sys.works| == |sys.polls| == workers && |Rotation(sys.sched.handed)| <= t ==>
      |Lanes(sys, i + 1)| <= |Lanes(sys, j + 1)| + 1
  }

  /**
   * The lanes that workers actually hold stay within one of each other, in every run of up to t lanes
   * assigned in rotation, if and only if t is at most 2^32 or the number of those workers divides 2^32.
   */
  lemma LoadsBalancedExactly(workers: nat, t: nat)
    requires workers >= 2
    ensures AlwaysBalanced(workers, t) <==> t <= U32_LIMIT || U32_LIMIT % (workers - 1) == 0
  {
    if t <= U32_LIMIT || U32_LIMIT % (workers - 1) == 0 {
      forall slots: nat, steps: seq<Step>, i: nat, j: nat ensures BalancedRun(workers, t, slots, steps, i, j) {
        if i < workers - 1 && j < workers - 1 {
          LoadsBalanced(workers, slots, steps, i, j);
        }
      }
    } else {
      var steps := UnbalancedRun(workers, t);
    }
  }

  lemma UnbalancedRun(workers: nat, t: nat) returns (steps: seq<Step>)
    requires workers >= 2 && t > U32_LIMIT && U32_LIMIT % (workers - 1) != 0
    ensures !BalancedRun(workers, t, 1, steps, 0, workers - 2)
  {
    steps := WrappedRun(workers);
    var wrap: nat := U32_LIMIT;
    Balance.UnevenAfterWrap(workers - 1, wrap);
    LoadsBalanced(workers, 1, steps, 0, workers - 2);
    LoadsBalanced(workers, 1, steps, workers - 2, 0);
  }
}
