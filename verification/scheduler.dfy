/** Queues, their lanes, and the round-robin assignment of lanes to workers. */
module Scheduler {
  import opened HrunTypes

  /** `longRunning` is the QUEUE_LONG_RUNNING bit of the group's flags. */
  datatype LaneGroup = LaneGroup(prio: u32, numLanes: u32, longRunning: bool, numScheduled: u32) {
    predicate IsLowPriority() {
      longRunning || prio == 0
    }
  }

  /** A slot of the queue map; an unused slot has the null id and no groups. */
  datatype Queue = Queue(isNull: bool, groups: seq<LaneGroup>)

  datatype WorkEntry = WorkEntry(queue: nat, prio: nat, lane: nat)

  /** One PollQueues call of the scheduler. */
  datatype Hand = Hand(worker: nat, entry: WorkEntry)

  /** `handed` is every assignment made so far, in order. */
  datatype Sched = Sched(queues: seq<Queue>, count: u32, handed: seq<Hand>)

  function RoundRobin(workers: nat, count: u32): nat
    requires workers >= 2
  {
    count % (workers - 1) + 1
  }

  function HandLane(workers: nat, s: Sched, q: nat, g: nat, lane: nat): (s': Sched)
    requires workers >= 2 && q < |s.queues| && g < |s.queues[q].groups|
    ensures s'.queues == s.queues
  {
    var entry := WorkEntry(q, g, lane);
    if s.queues[q].groups[g].IsLowPriority() then
      s.(handed := s.handed + [Hand(0, entry)])
    else
      s.(handed := s.handed + [Hand(RoundRobin(workers, s.count), entry)], count := (s.count + 1) % U32_LIMIT)
  }

  function HandLanes(workers: nat, s: Sched, q: nat, g: nat, from: nat, to: nat): (s': Sched)
    requires workers >= 2 && q < |s.queues| && g < |s.queues[q].groups|
    ensures s'.queues == s.queues
    decreases (to as int) - (from as int)
  {
    if from >= to then s else HandLanes(workers, HandLane(workers, s, q, g, from), q, g, from + 1, to)
  }

  function MarkScheduled(s: Sched, q: nat, g: nat): (s': Sched)
    requires q < |s.queues| && g < |s.queues[q].groups|
  {
    var grp := s.queues[q].groups[g];
    s.(queues := s.queues[q := s.queues[q].(groups := s.queues[q].groups[g := grp.(numScheduled := grp.numLanes)])])
  }

  function ScheduleGroup(workers: nat, s: Sched, q: nat, g: nat): (s': Sched)
    requires workers >= 2 && q < |s.queues| && g < |s.queues[q].groups|
    ensures |s'.queues| == |s.queues|
    ensures forall x | 0 <= x < |s.queues| :: |s'.queues[x].groups| == |s.queues[x].groups|
  {
    var grp := s.queues[q].groups[g];
    MarkScheduled(HandLanes(workers, s, q, g, grp.numScheduled, grp.numLanes), q, g)
  }

  function ScheduleGroups(workers: nat, s: Sched, q: nat, g: nat): (s': Sched)
    requires workers >= 2 && q < |s.queues| && g <= |s.queues[q].groups|
    ensures |s'.queues| == |s.queues|
    ensures forall x | 0 <= x < |s.queues| :: |s'.queues[x].groups| == |s.queues[x].groups|
    decreases |s.queues[q].groups| - g
  {
    if g == |s.queues[q].groups| then s else ScheduleGroups(workers, ScheduleGroup(workers, s, q, g), q, g + 1)
  }

  function ScheduleQueues(workers: nat, s: Sched, q: nat): (s': Sched)
    requires workers >= 2 && q <= |s.queues|
    ensures |s'.queues| == |s.queues|
    decreases |s.queues| - q
  {
    if q == |s.queues| then s
    else if s.queues[q].isNull then ScheduleQueues(workers, s, q + 1)
    else ScheduleQueues(workers, ScheduleGroups(workers, s, q, 0), q + 1)
  }

  datatype PriorityInfo = PriorityInfo(numLanes: u32, longRunning: bool)

  /** The groups of a new queue: numbered by priority, none of their lanes scheduled. */
  function NewGroups(info: seq<PriorityInfo>): seq<LaneGroup>
    requires |info| < U32_LIMIT
  {
    seq(|info|, i requires 0 <= i < |info| => LaneGroup(i, info[i].numLanes, info[i].longRunning, 0))
  }

  /** The constructor's loop over the priorities. */
  method MakeGroups(info: seq<PriorityInfo>) returns (groups: seq<LaneGroup>)
    requires |info| < U32_LIMIT
    ensures groups == NewGroups(info)
    ensures forall i | 0 <= i < |groups| :: groups[i].prio == i && groups[i].numScheduled == 0
  {
    groups := [];
    var prio: u32 := 0;
    while prio < |info|
      invariant prio <= |info| && groups == NewGroups(info)[..prio]
      decreases |info| - prio
    {
      groups := groups + [LaneGroup(prio, info[prio].numLanes, info[prio].longRunning, 0)];
      prio := prio + 1;
    }
  }

  /** A queue is created in an unused slot only. */
  function CreateQueue(s: Sched, q: nat, info: seq<PriorityInfo>): Sched {
    if q < |s.queues| && s.queues[q].isNull && |info| < U32_LIMIT then
      s.(queues := s.queues[q := Queue(false, NewGroups(info))])
    else s
  }

  // ---------------------------------------------------------------- the scheduler object

  class RoundRobinScheduler {
    const workers: nat
    var queues: seq<Queue>
    var count: u32
    var handed: seq<Hand>

    ghost function View(): Sched
      reads this
    {
      Sched(queues, count, handed)
    }

    constructor (workers: nat, slots: nat)
      ensures this.workers == workers
      ensures View() == Sched(seq(slots, _ => Queue(true, [])), 0, [])
    {
      this.workers := workers;
      queues, count, handed := seq(slots, _ => Queue(true, [])), 0, [];
    }

    method PollQueues(worker: nat, entry: WorkEntry)
      modifies `handed
      ensures handed == old(handed) + [Hand(worker, entry)]
    {
      handed := handed + [Hand(worker, entry)];
    }

    /** Check if any new lanes need to be scheduled. */
    method Schedule()
      requires workers >= 2
      modifies this
      ensures View() == ScheduleQueues(workers, old(View()), 0)
    {
      var q := 0;
      while q < |queues|
        invariant 0 <= q <= |queues| == |old(queues)|
        invariant ScheduleQueues(workers, View(), q) == ScheduleQueues(workers, old(View()), 0)
        decreases |queues| - q
      {
        if !queues[q].isNull {
          ScheduleQueue(q);
        }
        q := q + 1;
      }
    }

    method ScheduleQueue(q: nat)
      requires workers >= 2 && q < |queues|
      modifies this
      ensures View() == ScheduleGroups(workers, old(View()), q, 0)
    {
      var g := 0;
      while g < |queues[q].groups|
        invariant |queues| == |old(queues)| && 0 <= g <= |queues[q].groups|
        invariant ScheduleGroups(workers, View(), q, g) == ScheduleGroups(workers, old(View()), q, 0)
        decreases |queues[q].groups| - g
      {
        ScheduleLanes(q, g);
        g := g + 1;
      }
    }

    method ScheduleLanes(q: nat, g: nat)
      requires workers >= 2 && q < |queues| && g < |queues[q].groups|
      modifies this
      ensures View() == ScheduleGroup(workers, old(View()), q, g)
    {
      var group := queues[q].groups[g];
      var lane: int := group.numScheduled;
      while lane < group.numLanes
        invariant 0 <= lane && queues == old(queues)
        invariant HandLanes(workers, View(), q, g, lane, group.numLanes)
                  == HandLanes(workers, old(View()), q, g, group.numScheduled, group.numLanes)
        decreases (group.numLanes as int) - lane
      {
        if group.IsLowPriority() {
          PollQueues(0, WorkEntry(q, g, lane));
        } else {
          var worker := count % (workers - 1) + 1;
          PollQueues(worker, WorkEntry(q, g, lane));
          count := (count + 1) % U32_LIMIT;
        }
        lane := lane + 1;
      }
      queues := queues[q := queues[q].(groups := queues[q].groups[g := group.(numScheduled := group.numLanes)])];
    }
  }

  // ---------------------------------------------------------------- from PollQueues to work_queue_

  function Flatten(batches: seq<seq<WorkEntry>>): seq<WorkEntry> {
    if batches == [] then [] else batches[0] + Flatten(batches[1..])
  }

  /** A worker's hand-over queue and the lanes it polls. */
  class Poller {
    var pollQueues: seq<seq<WorkEntry>>
    var workQueue: seq<WorkEntry>

    constructor ()
      ensures pollQueues == [] && workQueue == []
    {
      pollQueues, workQueue := [], [];
    }

    /** Merge the waiting batches; nothing is lost, duplicated or reordered. */
    method MergePollQueues()
      modifies this
      ensures pollQueues == [] && workQueue == old(workQueue) + Flatten(old(pollQueues))
    {
      while pollQueues != []
        invariant workQueue + Flatten(pollQueues) == old(workQueue) + Flatten(old(pollQueues))
        decreases |pollQueues|
      {
        var batch := pollQueues[0];
        ghost var before := workQueue;
        ghost var rest := Flatten(pollQueues[1..]);
        pollQueues := pollQueues[1..];
        ghost var tail := pollQueues;
        for i := 0 to |batch|
          invariant workQueue == before + batch[..i]
          invariant pollQueues == tail
        {
          workQueue := workQueue + [batch[i]];
        }
        assert before + (batch + rest) == (before + batch) + rest;
        assert batch[..|batch|] == batch;
      }
    }
  }
}
