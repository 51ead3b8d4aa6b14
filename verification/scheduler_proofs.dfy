/** Every lane is handed to exactly one worker exactly once, in strict rotation. */
module SchedulerProofs {
  import opened HrunTypes
  import opened Scheduler

  ghost predicate HasEntry(handed: seq<Hand>, e: WorkEntry) {
    exists i :: 0 <= i < |handed| && handed[i].entry == e
  }

  predicate Twice(handed: seq<Hand>, i: nat, j: nat) {
    i < j < |handed| && handed[i].entry == handed[j].entry
  }

  ghost predicate NoLaneTwice(handed: seq<Hand>) {
    forall i: nat, j: nat :: !Twice(handed, i, j)
  }

  predicate ValidEntry(s: Sched, e: WorkEntry) {
    e.queue < |s.queues| && e.prio < |s.queues[e.queue].groups|
  }

  predicate Low(s: Sched, e: WorkEntry)
    requires ValidEntry(s, e)
  {
    s.queues[e.queue].groups[e.prio].IsLowPriority()
  }

  /** The group counts this lane as scheduled, or it belongs to the part of group (q, g) below `upto`. */
  predicate Due(s: Sched, q: nat, g: nat, upto: nat, e: WorkEntry) {
    && ValidEntry(s, e)
    && (|| e.lane < s.queues[e.queue].groups[e.prio].numScheduled
        || (e.queue == q && e.prio == g && e.lane < upto))
  }

  /** The workers other than 0, in the order lanes were given to them. */
  function Rotation(handed: seq<Hand>): seq<nat> {
    if handed == [] then []
    else
      var last := handed[|handed| - 1];
      Rotation(handed[..|handed| - 1]) + if last.worker == 0 then [] else [last.worker]
  }

  ghost predicate RotationOk(workers: nat, count: u32, rotation: seq<nat>)
    requires workers >= 2
  {
    && count == |rotation| % U32_LIMIT
    && forall k | 0 <= k < |rotation| :: rotation[k] == k % U32_LIMIT % (workers - 1) + 1
  }

  ghost predicate GroupsOk(s: Sched) {
    forall q, g | 0 <= q < |s.queues| && 0 <= g < |s.queues[q].groups| ::
      s.queues[q].groups[g].prio == g && s.queues[q].groups[g].numScheduled <= s.queues[q].groups[g].numLanes
  }

  /** The assignment so far, with group (q, g) being worked on up to lane `upto`. */
  ghost predicate InvAt(workers: nat, s: Sched, q: nat, g: nat, upto: nat)
    requires workers >= 2
  {
    && GroupsOk(s)
    && (forall x | 0 <= x < |s.queues| :: s.queues[x].isNull ==> s.queues[x].groups == [])
    && NoLaneTwice(s.handed)
    && (forall e :: HasEntry(s.handed, e) <==> Due(s, q, g, upto, e))
    && (forall i | 0 <= i < |s.handed| ::
          ValidEntry(s, s.handed[i].entry)
          && if Low(s, s.handed[i].entry) then s.handed[i].worker == 0 else 1 <= s.handed[i].worker < workers)
    && RotationOk(workers, s.count, Rotation(s.handed))
  }

  ghost predicate Inv(workers: nat, s: Sched)
    requires workers >= 2
  {
    InvAt(workers, s, 0, 0, 0)
  }

  lemma AppendRotation(handed: seq<Hand>, h: Hand)
    ensures Rotation(handed + [h]) == Rotation(handed) + if h.worker == 0 then [] else [h.worker]
  {
    assert (handed + [h])[..|handed + [h]| - 1] == handed;
  }

  lemma HasAppended(handed: seq<Hand>, h: Hand, e: WorkEntry)
    ensures HasEntry(handed + [h], e) <==> HasEntry(handed, e) || e == h.entry
  {
    var all := handed + [h];
    assert all[|handed|] == h;
    if HasEntry(handed, e) {
      var i :| 0 <= i < |handed| && handed[i].entry == e;
      assert all[i].entry == e;
    }
  }

  lemma RotationStep(workers: nat, count: u32, rotation: seq<nat>)
    requires workers >= 2 && RotationOk(workers, count, rotation)
    ensures RotationOk(workers, (count + 1) % U32_LIMIT, rotation + [RoundRobin(workers, count)])
  {
    assert (|rotation| + 1) % U32_LIMIT == (|rotation| % U32_LIMIT + 1) % U32_LIMIT;
  }

  lemma HandedKept(workers: nat, s: Sched, q: nat, g: nat, lane: nat, s': Sched)
    requires workers >= 2 && GroupsOk(s) && NoLaneTwice(s.handed) && q < |s.queues| && g < |s.queues[q].groups|
    requires s' == HandLane(workers, s, q, g, lane)
    requires !HasEntry(s.handed, WorkEntry(q, g, lane))
    requires forall i | 0 <= i < |s.handed| ::
               ValidEntry(s, s.handed[i].entry)
               && if Low(s, s.handed[i].entry) then s.handed[i].worker == 0 else 1 <= s.handed[i].worker < workers
    ensures NoLaneTwice(s'.handed)
    ensures forall i | 0 <= i < |s'.handed| ::
              ValidEntry(s', s'.handed[i].entry)
              && if Low(s', s'.handed[i].entry) then s'.handed[i].worker == 0 else 1 <= s'.handed[i].worker < workers
  {
    var e0 := WorkEntry(q, g, lane);
    forall i | 0 <= i < |s.handed| ensures s.handed[i].entry != e0 {}
    forall i: nat, j: nat ensures !Twice(s'.handed, i, j) {
      if i < j < |s.handed| { assert !Twice(s.handed, i, j); }
    }
  }

  lemma DueStep(s: Sched, s': Sched, q: nat, g: nat, lane: nat)
    requires q < |s.queues| && g < |s.queues[q].groups| && s'.queues == s.queues
    requires forall e :: HasEntry(s.handed, e) <==> Due(s, q, g, lane, e)
    requires |s'.handed| == |s.handed| + 1 && s'.handed[..|s.handed|] == s.handed
    requires s'.handed[|s.handed|].entry == WorkEntry(q, g, lane)
    ensures forall e :: HasEntry(s'.handed, e) <==> Due(s', q, g, lane + 1, e)
  {
    var h := s'.handed[|s.handed|];
    assert s'.handed == s.handed + [h];
    forall e ensures HasEntry(s'.handed, e) <==> Due(s', q, g, lane + 1, e) {
      HasAppended(s.handed, h, e);
      assert HasEntry(s.handed, e) <==> Due(s, q, g, lane, e);
    }
  }

  lemma HandLaneInv(workers: nat, s: Sched, q: nat, g: nat, lane: nat)
    requires workers >= 2 && InvAt(workers, s, q, g, lane)
    requires q < |s.queues| && g < |s.queues[q].groups| && s.queues[q].groups[g].numScheduled <= lane
    ensures InvAt(workers, HandLane(workers, s, q, g, lane), q, g, lane + 1)
  {
    var s' := HandLane(workers, s, q, g, lane);
    var e0 := WorkEntry(q, g, lane);
    var h := s'.handed[|s.handed|];
    assert s'.handed == s.handed + [h] && h.entry == e0;
    AppendRotation(s.handed, h);
    RotationStep(workers, s.count, Rotation(s.handed));
    assert !Due(s, q, g, lane, e0);
    assert !HasEntry(s.handed, e0);
    HandedKept(workers, s, q, g, lane, s');
    DueStep(s, s', q, g, lane);
  }

  lemma {:induction false} HandLanesInv(workers: nat, s: Sched, q: nat, g: nat, from: nat, to: nat)
    requires workers >= 2 && InvAt(workers, s, q, g, from) && from <= to
    requires q < |s.queues| && g < |s.queues[q].groups| && s.queues[q].groups[g].numScheduled <= from
    ensures InvAt(workers, HandLanes(workers, s, q, g, from, to), q, g, to)
    decreases (to as int) - (from as int)
  {
    if from < to {
      HandLaneInv(workers, s, q, g, from);
      HandLanesInv(workers, HandLane(workers, s, q, g, from), q, g, from + 1, to);
    }
  }

  lemma ScheduleGroupInv(workers: nat, s: Sched, q: nat, g: nat)
    requires workers >= 2 && Inv(workers, s) && q < |s.queues| && g < |s.queues[q].groups|
    ensures Inv(workers, ScheduleGroup(workers, s, q, g))
  {
    var grp := s.queues[q].groups[g];
    assert GroupsOk(s);
    forall e ensures Due(s, q, g, grp.numScheduled, e) <==> Due(s, 0, 0, 0, e) {}
    HandLanesInv(workers, s, q, g, grp.numScheduled, grp.numLanes);
    MarkInv(workers, HandLanes(workers, s, q, g, grp.numScheduled, grp.numLanes), q, g);
  }

  lemma MarkInv(workers: nat, s: Sched, q: nat, g: nat)
    requires workers >= 2 && q < |s.queues| && g < |s.queues[q].groups|
    requires InvAt(workers, s, q, g, s.queues[q].groups[g].numLanes)
    ensures Inv(workers, MarkScheduled(s, q, g))
  {
    var s' := MarkScheduled(s, q, g);
    assert GroupsOk(s);
    forall e ensures Due(s', 0, 0, 0, e) <==> Due(s, q, g, s.queues[q].groups[g].numLanes, e) {
      assert ValidEntry(s', e) <==> ValidEntry(s, e);
    }
    forall x, y | 0 <= x < |s'.queues| && 0 <= y < |s'.queues[x].groups|
      ensures s'.queues[x].groups[y].prio == y && s'.queues[x].groups[y].numScheduled <= s'.queues[x].groups[y].numLanes
    {
      assert s.queues[x].groups[y].prio == y;
    }
    forall i | 0 <= i < |s'.handed|
      ensures ValidEntry(s', s'.handed[i].entry)
      ensures if Low(s', s'.handed[i].entry) then s'.handed[i].worker == 0 else 1 <= s'.handed[i].worker < workers
    {
      assert ValidEntry(s, s.handed[i].entry);
    }
  }

  /** Scheduling touches the number of scheduled lanes only, and only ever raises it to the lane count. */
  ghost predicate Progress(s: Sched, s': Sched) {
    && |s'.queues| == |s.queues|
    && forall x | 0 <= x < |s.queues| ::
         && s'.queues[x].isNull == s.queues[x].isNull && |s'.queues[x].groups| == |s.queues[x].groups|
         && forall y | 0 <= y < |s.queues[x].groups| ::
              || s'.queues[x].groups[y] == s.queues[x].groups[y]
              || s'.queues[x].groups[y] == s.queues[x].groups[y].(numScheduled := s.queues[x].groups[y].numLanes)
  }

  ghost predicate GroupsDone(s: Sched, q: nat, g: nat) {
    q < |s.queues| ==> forall y | 0 <= y < g && y < |s.queues[q].groups| ::
      s.queues[q].groups[y].numScheduled == s.queues[q].groups[y].numLanes
  }

  lemma {:induction false} ScheduleGroupsInv(workers: nat, s: Sched, q: nat, g: nat)
    requires workers >= 2 && Inv(workers, s) && q < |s.queues| && g <= |s.queues[q].groups| && GroupsDone(s, q, g)
    ensures
      var s' := ScheduleGroups(workers, s, q, g);
      Inv(workers, s') && Progress(s, s') && GroupsDone(s', q, |s.queues[q].groups|)
    decreases |s.queues[q].groups| - g
  {
    if g < |s.queues[q].groups| {
      ScheduleGroupInv(workers, s, q, g);
      ScheduleGroupsInv(workers, ScheduleGroup(workers, s, q, g), q, g + 1);
    }
  }

  ghost predicate QueuesDone(s: Sched, q: nat) {
    forall x, y | 0 <= x < q && x < |s.queues| && 0 <= y < |s.queues[x].groups| ::
      s.queues[x].groups[y].numScheduled == s.queues[x].groups[y].numLanes
  }

  lemma OneMoreDone(s: Sched, q: nat, s1: Sched)
    requires q < |s.queues| && QueuesDone(s, q) && Progress(s, s1) && GroupsDone(s1, q, |s.queues[q].groups|)
    ensures QueuesDone(s1, q + 1)
  {
    forall x, y | 0 <= x < q + 1 && x < |s1.queues| && 0 <= y < |s1.queues[x].groups|
      ensures s1.queues[x].groups[y].numScheduled == s1.queues[x].groups[y].numLanes
    {
      if x < q { assert s.queues[x].groups[y].numScheduled == s.queues[x].groups[y].numLanes; }
    }
  }

  /** One queue is scheduled completely. */
  lemma ScheduleQueueInv(workers: nat, s: Sched, q: nat, s1: Sched)
    requires workers >= 2 && Inv(workers, s) && q < |s.queues| && QueuesDone(s, q)
    requires s1 == AfterQueue(workers, s, q)
    ensures Inv(workers, s1) && |s1.queues| == |s.queues| && QueuesDone(s1, q + 1)
  {
    if !s.queues[q].isNull {
      ScheduleGroupsInv(workers, s, q, 0);
      OneMoreDone(s, q, s1);
    }
  }

  lemma {:induction false} ScheduleQueuesInv(workers: nat, s: Sched, q: nat)
    requires workers >= 2 && Inv(workers, s) && q <= |s.queues| && QueuesDone(s, q)
    ensures
      var s' := ScheduleQueues(workers, s, q);
      Inv(workers, s') && QueuesDone(s', |s'.queues|)
    decreases |s.queues| - q
  {
    if q < |s.queues| {
      var s1 := AfterQueue(workers, s, q);
      ScheduleQueueInv(workers, s, q, s1);
      ScheduleQueuesInv(workers, s1, q + 1);
      NextQueue(workers, s, q);
    }
  }

  function AfterQueue(workers: nat, s: Sched, q: nat): (s1: Sched)
    requires workers >= 2 && q < |s.queues|
    ensures |s1.queues| == |s.queues|
  {
    if s.queues[q].isNull then s else ScheduleGroups(workers, s, q, 0)
  }

  lemma {:induction false} NextQueue(workers: nat, s: Sched, q: nat)
    requires workers >= 2 && q < |s.queues|
    ensures ScheduleQueues(workers, s, q) == ScheduleQueues(workers, AfterQueue(workers, s, q), q + 1)
  {}

  lemma CreateQueueInv(workers: nat, s: Sched, q: nat, info: seq<PriorityInfo>)
    requires workers >= 2 && Inv(workers, s)
    ensures Inv(workers, CreateQueue(s, q, info))
  {
    var s' := CreateQueue(s, q, info);
    if s' != s {
      assert GroupsOk(s);
      forall e ensures Due(s', 0, 0, 0, e) <==> Due(s, 0, 0, 0, e) {}
      forall i | 0 <= i < |s'.handed|
        ensures ValidEntry(s', s'.handed[i].entry)
        ensures if Low(s', s'.handed[i].entry) then s'.handed[i].worker == 0 else 1 <= s'.handed[i].worker < workers
      {
        assert ValidEntry(s, s.handed[i].entry);
      }
    }
  }
}
