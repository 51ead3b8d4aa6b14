/** Arrivals at risk do start out of order in some run; and so the exact condition on arrivals. */
module WorkerArrivalsExact {
  import opened HrunTypes
  import opened WorkerModel
  import opened WorkerInvariant
  import opened WorkerSteps
  import opened WorkerRuns
  import opened WorkerTouch
  import opened WorkerOrder
  import opened WorkerProgress
  import opened WorkerArrivals
  import opened WorkerServe

  /** The three slots of a risk: j of lane l is to overtake i, while x of lane m holds the group. */
  datatype Trap = Trap(l: nat, i: nat, j: nat, m: nat, x: nat)

  predicate TrapIn(c: Config, s: State, plan: Plan, t: Trap) {
    Risk(c, LaneIds(s), plan, t.l, t.i, t.j, t.m, t.x)
  }

  /** Where lane l stands still: at the holder, or at the task that is to wait. */
  function Base(t: Trap): nat {
    if t.m == t.l then t.x else t.i
  }

  /** `h` is the holder: active in the group of lane l, its module not finished. */
  ghost predicate Holds(c: Config, s: State, t: Trap, h: Ptr) {
    && t.m < |s.lanes| && t.l < |s.lanes| && t.x < |s.lanes[t.m].slots| && h == s.lanes[t.m].slots[t.x].p
    && h in s.tasks && Holding(c, s.tasks[h], s.lanes[t.l].laneId) && ModuleComplete !in s.tasks[h].flags
  }

  ghost predicate OrderedAt(s: State, l: nat, j: nat)
    requires l < |s.lanes| && j < |s.lanes[l].slots|
  {
    s.lanes[l].slots[j].p in s.born && s.born[s.lanes[l].slots[j].p].locking
  }

  /** The trap is set: the holder holds, and slot i of lane l, once there, waits. */
  ghost predicate Pinned(c: Config, plan: Plan, s: State, t: Trap, h: Ptr) {
    && Inv(c, s) && InReach(s) && Follows(plan, s) && TrapIn(c, s, plan, t) && Holds(c, s, t, h)
    && (t.i < |s.lanes[t.l].slots| ==> Waits(s, s.lanes[t.l].slots[t.i].p))
    && (t.j < |s.lanes[t.l].slots| ==> OrderedAt(s, t.l, t.j))
    && s.lanes[t.l].head == Base(t) <= |s.lanes[t.l].slots|
    && |s.tasks| <= 1 + |s.lanes[t.l].slots| - Base(t)
  }

  // ---------------------------------------------------------------- the holder gets in and stays

  /** A held task that is examined, its module not finishing, goes on holding. */
  lemma HolderStays(c: Config, s: State, l: nat, off: nat, h: Ptr, next: (State, nat))
    requires OpenAt(c, s, l, off, h) && Holding(c, s.tasks[h], s.lanes[l].laneId)
    requires ModuleComplete !in s.tasks[h].flags && next == Iterate(c, s, l, off, STAY)
    ensures h in next.0.tasks && Holding(c, next.0.tasks[h], s.lanes[l].laneId)
    ensures ModuleComplete !in next.0.tasks[h].flags
  {
    var s1 := AdmitTask(c, s, l, h, STAY);
    TwoHalves(c, s, l, off, STAY, h, s1, next);
    AdmittedTaskOk(c, s, l, h, STAY);
    StayUnfinished(c, s, l, h, s1);
  }

  lemma StayUnfinished(c: Config, s: State, l: nat, p: Ptr, s1: State)
    requires OpenTask(c, s, l, p) && ModuleComplete !in s.tasks[p].flags && s1 == AdmitTask(c, s, l, p, STAY)
    ensures p in s1.tasks && ModuleComplete !in s1.tasks[p].flags && s1.tasks[p].laneId == s.lanes[l].laneId
    ensures Entered(s.tasks[p]) ==> Entered(s1.tasks[p])
  {}

  /** A fresh ordered task in an idle group becomes its holder. */
  lemma HolderEnters(c: Config, s: State, l: nat, h: Ptr, s': State)
    requires OpenAt(c, s, l, 0, h) && Fresh(s.tasks[h]) && Locking(c, s.tasks[h])
    requires s.lanes[l].laneId !in s.groups && s' == Iterate(c, s, l, 0, STAY).0
    ensures h in s'.tasks && Holding(c, s'.tasks[h], s.lanes[l].laneId) && ModuleComplete !in s'.tasks[h].flags
  {
    var s1 := AdmitTask(c, s, l, h, STAY);
    IdleGroupEnters(c, s, l, h, STAY);
    TwoHalves(c, s, l, 0, STAY, h, s1, Iterate(c, s, l, 0, STAY));
    AdmittedTaskOk(c, s, l, h, STAY);
    StayUnfinished(c, s, l, h, s1);
  }

  // ---------------------------------------------------------------- who is let in past the holder

  lemma HeldRoot(c: Config, s: State, t: Trap, h: Ptr)
    requires GroupsOk(c, s.tasks, s.groups) && Holds(c, s, t, h)
    ensures s.lanes[t.l].laneId in s.groups && s.groups[s.lanes[t.l].laneId].root.Same(s.tasks[h].root)
  {
    assert h in Holders(c, s.tasks, s.lanes[t.l].laneId) && GroupOk(c, s.tasks, s.groups, s.lanes[t.l].laneId);
  }

  lemma PlannedRoot(c: Config, plan: Plan, s: State, l: nat, i: nat, p: Ptr)
    requires LanesOk(s) && TasksOk(c, s) && Follows(plan, s) && l < |plan| && i < |s.lanes[l].slots|
    requires p == s.lanes[l].slots[i].p && p in s.tasks
    ensures i < |plan[l]| && s.tasks[p].root == plan[l][i].root && Locking(c, s.tasks[p]) == Locking(c, plan[l][i])
  {
    assert AsPlanned(plan, s, l, i) && Housed(c, s, p);
  }

  /** Of two planned tasks of lane l, the one to wait is refused and the one to overtake is let in. */
  lemma TrapWorks(c: Config, plan: Plan, s: State, t: Trap, h: Ptr, i: nat, p: Ptr)
    requires LanesOk(s) && TasksOk(c, s) && GroupsOk(c, s.tasks, s.groups)
    requires Follows(plan, s) && TrapIn(c, s, plan, t) && Holds(c, s, t, h)
    requires i < |s.lanes[t.l].slots| && p == s.lanes[t.l].slots[i].p && p in s.tasks && !Entered(s.tasks[p])
    ensures i == t.i ==> !LetsIn(c, s, t.l, p)
    ensures i == t.j ==> LetsIn(c, s, t.l, p)
  {
    HeldRoot(c, s, t, h);
    PlannedRoot(c, plan, s, t.l, i, p);
    PlannedRoot(c, plan, s, t.m, t.x, h);
  }

  // ---------------------------------------------------------------- the trap stays set

  /** One iteration over lane l in which no module finishes. */
  lemma HolderKept(c: Config, s: State, t: Trap, h: Ptr, off: nat, next: (State, nat))
    requires LanesOk(s) && LiveOk(s) && TasksOk(c, s) && Holds(c, s, t, h)
    requires s.lanes[t.l].head + off < |s.lanes[t.l].slots| && next == Iterate(c, s, t.l, off, STAY)
    ensures h in next.0.tasks && Holding(c, next.0.tasks[h], s.lanes[t.l].laneId)
    ensures ModuleComplete !in next.0.tasks[h].flags
  {
    var pos := s.lanes[t.l].head + off;
    if s.lanes[t.l].slots[pos].p == h && !s.lanes[t.l].slots[pos].complete {
      UnfinishedIsOpen(c, s, t.l, pos);
      HolderStays(c, s, t.l, off, h, next);
    } else {
      NotExamined(c, s, t.l, off, h, next.0);
    }
  }

  /** A task that is not in an open slot under the cursor is left alone. */
  lemma NotExamined(c: Config, s: State, l: nat, off: nat, h: Ptr, s': State)
    requires LanesOk(s) && LiveOk(s) && TasksOk(c, s) && l < |s.lanes| && h in s.tasks
    requires s.lanes[l].head + off < |s.lanes[l].slots| && s' == Iterate(c, s, l, off, STAY).0
    requires s.lanes[l].slots[s.lanes[l].head + off].p == h ==> s.lanes[l].slots[s.lanes[l].head + off].complete
    ensures h in s'.tasks && s'.tasks[h] == s.tasks[h]
  {
    if s.lanes[l].slots[s.lanes[l].head + off].complete {
      PassedOver(c, s, l, off, STAY, s');
    } else {
      IterateFrame(c, s, l, off, STAY, s');
    }
  }

  lemma HoldsStill(c: Config, s: State, t: Trap, h: Ptr, s': State)
    requires Holds(c, s, t, h) && SameLayout(s, s')
    requires h in s'.tasks && Holding(c, s'.tasks[h], s.lanes[t.l].laneId) && ModuleComplete !in s'.tasks[h].flags
    ensures Holds(c, s', t, h)
  {
    assert SameSlotTasks(s.lanes[t.l], s'.lanes[t.l]) && SameSlotTasks(s.lanes[t.m], s'.lanes[t.m]);
  }

  lemma WaiterKept(c: Config, s: State, l: nat, off: nat, w: Ptr, s': State)
    requires LanesOk(s) && LiveOk(s) && TasksOk(c, s) && l < |s.lanes| && w in s.tasks
    requires Waits(s, w) && !LetsIn(c, s, l, w)
    requires s.lanes[l].head + off < |s.lanes[l].slots| && s' == Iterate(c, s, l, off, STAY).0
    ensures Waits(s', w)
  {
    var pos := s.lanes[l].head + off;
    if s.lanes[l].slots[pos].complete {
      PassedOver(c, s, l, off, STAY, s');
    } else {
      UnfinishedIsOpen(c, s, l, pos);
      IterateTouches(c, s, l, off, STAY, s.lanes[l].slots[pos].p, s');
    }
  }

  lemma WaiterRefused(c: Config, plan: Plan, s: State, t: Trap, h: Ptr)
    requires Pinned(c, plan, s, t, h) && t.i < |s.lanes[t.l].slots|
    ensures s.lanes[t.l].slots[t.i].p in s.tasks && !LetsIn(c, s, t.l, s.lanes[t.l].slots[t.i].p)
  {
    var w := s.lanes[t.l].slots[t.i].p;
    WaiterIsOpen(c, s, t.l, t.i);
    assert Tally(s, w);
    TrapWorks(c, plan, s, t, h, t.i, w);
  }

  /** The head of lane l cannot move past the slot it stands at, which stays open. */
  lemma BaseKept(c: Config, s: State, t: Trap, h: Ptr, s': State)
    requires AllGrew(s, s') && LanesOk(s') && LiveOk(s') && TasksOk(c, s') && LogOk(s') && Holds(c, s', t, h)
    requires t.l < |s.lanes| && s.lanes[t.l].head == Base(t) <= |s.lanes[t.l].slots|
    requires t.m != t.l ==> |s'.lanes[t.l].slots| == |s.lanes[t.l].slots|
    requires t.i < |s'.lanes[t.l].slots| ==> Waits(s', s'.lanes[t.l].slots[t.i].p)
    ensures s'.lanes[t.l].head == Base(t)
  {
    assert Grew(s.lanes[t.l], s'.lanes[t.l]);
    if t.m == t.l {
      assert Housed(c, s', h) && InLane(s', h) && LaneOk(s', t.l);
    } else if t.i < |s'.lanes[t.l].slots| {
      WaiterIsOpen(c, s', t.l, t.i);
      OpenFacts(c, s', s'.lanes[t.l].slots[t.i].p);
    }
  }

  lemma TrapStill(c: Config, s: State, plan: Plan, t: Trap, s': State)
    requires TrapIn(c, s, plan, t) && SameLayout(s, s')
    ensures TrapIn(c, s', plan, t)
  {
    forall k | 0 <= k < |s.lanes| ensures LaneIds(s')[k] == LaneIds(s)[k] {
      assert SameSlotTasks(s.lanes[k], s'.lanes[k]);
    }
    assert LaneIds(s') == LaneIds(s);
  }

  lemma PinnedFrame(c: Config, plan: Plan, s: State, t: Trap, off: nat, next: (State, nat))
    requires Inv(c, s) && InReach(s) && Follows(plan, s) && TrapIn(c, s, plan, t) && t.l < |s.lanes|
    requires HeadBusy(s, t.l, off) && off < MAX_ITERATIONS
    requires s.lanes[t.l].head + off < |s.lanes[t.l].slots| && next == Iterate(c, s, t.l, off, STAY)
    ensures Inv(c, next.0) && InReach(next.0) && Follows(plan, next.0) && TrapIn(c, next.0, plan, t)
    ensures AllGrew(s, next.0) && SameLayout(s, next.0) && |next.0.tasks| <= |s.tasks|
  {
    IterateInv(c, s, t.l, off, STAY);
    IterateReach(c, s, t.l, off, STAY, next);
    LayoutKept(c, s, t.l, off, STAY, next.0);
    FollowsStill(plan, s, next.0);
    TrapStill(c, s, plan, t, next.0);
    CardinalityMonotone(next.0.tasks.Keys, s.tasks.Keys);
  }

  lemma PinnedIterate(c: Config, plan: Plan, s: State, t: Trap, h: Ptr, off: nat, next: (State, nat))
    requires Pinned(c, plan, s, t, h) && HeadBusy(s, t.l, off) && off < MAX_ITERATIONS
    requires s.lanes[t.l].head + off < |s.lanes[t.l].slots| && next == Iterate(c, s, t.l, off, STAY)
    ensures Pinned(c, plan, next.0, t, h) && SameLayout(s, next.0)
  {
    PinnedFrame(c, plan, s, t, off, next);
    HolderKept(c, s, t, h, off, next);
    HoldsStill(c, s, t, h, next.0);
    if t.i < |s.lanes[t.l].slots| {
      WaiterRefused(c, plan, s, t, h);
      WaiterKept(c, s, t.l, off, s.lanes[t.l].slots[t.i].p, next.0);
    }
    PinnedAgain(c, plan, s, t, h, next.0);
  }

  lemma PinnedAgain(c: Config, plan: Plan, s: State, t: Trap, h: Ptr, s': State)
    requires t.l < |s.lanes| && s.lanes[t.l].head == Base(t) <= |s.lanes[t.l].slots|
    requires |s'.tasks| <= |s.tasks| <= 1 + |s.lanes[t.l].slots| - Base(t)
    requires Inv(c, s') && InReach(s') && Follows(plan, s') && TrapIn(c, s', plan, t) && Holds(c, s', t, h)
    requires AllGrew(s, s') && SameLayout(s, s')
    requires t.i < |s.lanes[t.l].slots| ==> Waits(s', s.lanes[t.l].slots[t.i].p)
    requires t.j < |s.lanes[t.l].slots| ==> OrderedAt(s, t.l, t.j)
    ensures Pinned(c, plan, s', t, h)
  {
    assert SameSlotTasks(s.lanes[t.l], s'.lanes[t.l]);
    BaseKept(c, s, t, h, s');
  }

  // ---------------------------------------------------------------- the rest of the lane arrives

  lemma TrapFits(c: Config, s: State, plan: Plan, t: Trap)
    requires TrapIn(c, s, plan, t)
    ensures t.l < |plan| && t.m < |plan| && t.j < |plan[t.l]| && t.x < |plan[t.m]|
    ensures Base(t) <= t.i < t.j && t.j - Base(t) < MAX_ITERATIONS && s.lanes[t.m].laneId == s.lanes[t.l].laneId
    ensures Locking(c, plan[t.l][t.i]) && Locking(c, plan[t.l][t.j]) && Locking(c, plan[t.m][t.x])
  {}

  lemma TrapLonger(c: Config, s: State, plan: Plan, t: Trap, l: nat, extra: nat, s': State)
    requires TrapIn(c, s, plan, t) && Longer(s, l, extra, s')
    ensures TrapIn(c, s', plan, t)
  {
    assert LaneIds(s') == LaneIds(s);
  }

  lemma ArrivalInv(c: Config, plan: Plan, s: State, l: nat, p: Ptr, s': State)
    requires Inv(c, s) && InReach(s) && Follows(plan, s) && l < |plan| && |s.lanes[l].slots| < |plan[l]|
    requires !c.exclusiveRoots && AllFresh(plan) && |s.tasks| + 1 < U32_LIMIT && p !in s.born
    requires s' == ApplyEnv(c, s, Emplace(l, plan[l][|s.lanes[l].slots|], p))
    ensures Inv(c, s') && InReach(s') && Follows(plan, s') && Longer(s, l, 1, s')
    ensures p in s'.born && s'.born[p].locking == Locking(c, plan[l][|s.lanes[l].slots|])
    ensures s'.lanes[l].head == s.lanes[l].head && s'.lanes[l].slots == s.lanes[l].slots + [Slot(p, false)]
    ensures forall k | 0 <= k < |s.lanes| && k != l :: s'.lanes[k] == s.lanes[k]
    ensures s'.born == s.born[p := s'.born[p]] && s'.log == s.log && Admitted(p) !in s.log
    ensures s'.tasks == s.tasks[p := s'.tasks[p]] && p !in s.tasks && p in s'.tasks
  {
    var e := Emplace(l, plan[l][|s.lanes[l].slots|], p);
    assert p in s.tasks ==> Housed(c, s, p);
    ArrivalShape(c, s, l, plan[l][|s.lanes[l].slots|], p, s');
    EnvStepInv(c, s, e);
    EnvStepReach(c, s, e);
    FollowsArrival(c, plan, s, l, p, s');
    UnbornUnlogged(s, p);
  }

  lemma ArrivalShape(c: Config, s: State, l: nat, t: Task, p: Ptr, s': State)
    requires l < |s.lanes| && !c.exclusiveRoots && Fresh(t) && |s.tasks| + 1 < U32_LIMIT
    requires p !in s.born && p !in s.tasks && s' == ApplyEnv(c, s, Emplace(l, t, p))
    ensures p in s'.born && s'.born[p].locking == Locking(c, t) && s'.born == s.born[p := s'.born[p]]
    ensures s'.lanes[l].head == s.lanes[l].head && s'.lanes[l].slots == s.lanes[l].slots + [Slot(p, false)]
    ensures forall k | 0 <= k < |s.lanes| && k != l :: s'.lanes[k] == s.lanes[k]
    ensures s'.log == s.log && s'.tasks == s.tasks[p := s'.tasks[p]] && p in s'.tasks
  {}

  lemma UnbornUnlogged(s: State, p: Ptr)
    requires LanesOk(s) && LiveOk(s) && LogOk(s) && p !in s.born
    ensures Admitted(p) !in s.log
  {
    assert forall x | x in s.log :: x.p in s.born;
  }

  lemma PinnedArrival(c: Config, plan: Plan, s: State, t: Trap, h: Ptr, p: Ptr, s': State)
    requires Pinned(c, plan, s, t, h) && |s.lanes[t.l].slots| <= t.j
    requires !c.exclusiveRoots && AllFresh(plan) && p !in s.born
    requires t.l < |plan| && t.j < |plan[t.l]|
    requires s' == ApplyEnv(c, s, Emplace(t.l, plan[t.l][|s.lanes[t.l].slots|], p))
    ensures Pinned(c, plan, s', t, h) && |s'.lanes[t.l].slots| == |s.lanes[t.l].slots| + 1
  {
    TrapFits(c, s, plan, t);
    ArrivalInv(c, plan, s, t.l, p, s');
    TrapLonger(c, s, plan, t, t.l, 1, s');
    ArrivalPins(c, plan, s, t, h, p, s');
  }

  lemma ArrivalPins(c: Config, plan: Plan, s: State, t: Trap, h: Ptr, p: Ptr, s': State)
    requires Holds(c, s, t, h) && (t.i < |s.lanes[t.l].slots| ==> Waits(s, s.lanes[t.l].slots[t.i].p))
    requires |s.lanes[t.l].slots| <= t.j && p !in s.born && p !in s.tasks && p in s'.tasks && p in s'.born
    requires s'.born == s.born[p := s'.born[p]] && s'.log == s.log && Admitted(p) !in s.log
    requires s'.tasks == s.tasks[p := s'.tasks[p]] && |s'.lanes| == |s.lanes|
    requires s'.lanes[t.l].slots == s.lanes[t.l].slots + [Slot(p, false)] && s'.lanes[t.l].laneId == s.lanes[t.l].laneId
    requires forall k | 0 <= k < |s.lanes| && k != t.l :: s'.lanes[k] == s.lanes[k]
    requires t.l < |plan| && t.i < t.j < |plan[t.l]| && Locking(c, plan[t.l][t.i]) && Locking(c, plan[t.l][t.j])
    requires s'.born[p].locking == Locking(c, plan[t.l][|s.lanes[t.l].slots|])
    ensures Holds(c, s', t, h)
    ensures t.i < |s'.lanes[t.l].slots| ==> Waits(s', s'.lanes[t.l].slots[t.i].p)
    ensures t.j < |s'.lanes[t.l].slots| ==> OrderedAt(s', t.l, t.j)
    ensures |s'.tasks| == |s.tasks| + 1
  {
    assert s'.tasks.Keys == s.tasks.Keys + {p};
    assert |s'.tasks| == |s'.tasks.Keys|;
  }

  /** The next planned task of lane l arrives, and the head of the lane is examined. */
  lemma PinnedTick(c: Config, plan: Plan, s: State, t: Trap, h: Ptr) returns (polls: seq<Poll>, s': State)
    requires Pinned(c, plan, s, t, h) && |s.lanes[t.l].slots| <= t.j && !c.exclusiveRoots && AllFresh(plan)
    ensures Bounded(polls) && s' == Execute(c, s, polls)
    ensures Pinned(c, plan, s', t, h) && |s'.lanes[t.l].slots| == |s.lanes[t.l].slots| + 1
  {
    TrapFits(c, s, plan, t);
    var p := Unused(s.born.Keys);
    var e := Emplace(t.l, plan[t.l][|s.lanes[t.l].slots|], p);
    var s1 := ApplyEnv(c, s, e);
    PinnedArrival(c, plan, s, t, h, p, s1);
    s' := PinnedHead(c, plan, s1, t, h);
    TickIsPoll(c, s, t.l, e);
    polls := TickPoll(t.l, e);
  }

  lemma PinnedHead(c: Config, plan: Plan, s: State, t: Trap, h: Ptr) returns (s': State)
    requires Pinned(c, plan, s, t, h) && s.lanes[t.l].head < |s.lanes[t.l].slots|
    ensures s' == Iterate(c, s, t.l, 0, STAY).0
    ensures Pinned(c, plan, s', t, h) && |s'.lanes[t.l].slots| == |s.lanes[t.l].slots|
  {
    var next := Iterate(c, s, t.l, 0, STAY);
    PinnedIterate(c, plan, s, t, h, 0, next);
    s' := next.0;
    assert SameSlotTasks(s.lanes[t.l], s'.lanes[t.l]);
  }

  lemma {:induction false} Fill(c: Config, plan: Plan, s: State, t: Trap, h: Ptr)
    returns (polls: seq<Poll>, s': State)
    requires Pinned(c, plan, s, t, h) && |s.lanes[t.l].slots| <= t.j + 1 && !c.exclusiveRoots && AllFresh(plan)
    ensures Bounded(polls) && s' == Execute(c, s, polls)
    ensures Pinned(c, plan, s', t, h) && |s'.lanes[t.l].slots| == t.j + 1
    decreases t.j + 1 - |s.lanes[t.l].slots|
  {
    if |s.lanes[t.l].slots| == t.j + 1 {
      polls, s' := [], s;
    } else {
      var first, s1 := PinnedTick(c, plan, s, t, h);
      var rest, s2 := Fill(c, plan, s1, t, h);
      TwoLegs(c, s, first, s1, rest, s2);
      polls, s' := first + rest, s2;
    }
  }

  // ---------------------------------------------------------------- the trap springs

  lemma AdmitsHere(c: Config, s: State, l: nat, off: nat, q: Ptr, s': State)
    requires LanesOk(s) && LiveOk(s) && TasksOk(c, s) && LogOk(s) && l < |s.lanes|
    requires s.lanes[l].head + off < |s.lanes[l].slots| && q == s.lanes[l].slots[s.lanes[l].head + off].p
    requires q in s.born && s.born[q].locking && (q in s.tasks && !Entered(s.tasks[q]) ==> LetsIn(c, s, l, q))
    requires s' == Iterate(c, s, l, off, STAY).0
    ensures Admitted(q) in s'.log
  {
    var pos := s.lanes[l].head + off;
    AdmittedUnless(c, s, l, pos, q);
    if s.lanes[l].slots[pos].complete {
      PassedOver(c, s, l, off, STAY, s');
    } else {
      UnfinishedIsOpen(c, s, l, pos);
      AdmitsOpen(c, s, l, off, q, s');
    }
  }

  lemma AdmittedUnless(c: Config, s: State, l: nat, pos: nat, q: Ptr)
    requires LanesOk(s) && LiveOk(s) && LogOk(s) && l < |s.lanes| && pos < |s.lanes[l].slots|
    requires q == s.lanes[l].slots[pos].p && q in s.born && s.born[q].locking
    ensures Admitted(q) in s.log || (!s.lanes[l].slots[pos].complete && q in s.tasks && !Entered(s.tasks[q]))
  {
    assert LaneOk(s, l) && InLane(s, q) && Tally(s, q);
  }

  lemma AdmitsOpen(c: Config, s: State, l: nat, off: nat, q: Ptr, s': State)
    requires OpenAt(c, s, l, off, q) && s' == Iterate(c, s, l, off, STAY).0
    requires Admitted(q) in s.log || LetsIn(c, s, l, q)
    ensures Admitted(q) in s'.log
  {
    IterateTouches(c, s, l, off, STAY, q, s');
    var es := IterateEvents(c, s, l, q, AdmitTask(c, s, l, q, STAY).tasks[q]);
    assert forall e :: e in s.log + es <==> e in s.log || e in es;
  }

  lemma OvertakerLetIn(c: Config, plan: Plan, s: State, t: Trap, h: Ptr)
    requires Pinned(c, plan, s, t, h) && t.j < |s.lanes[t.l].slots|
    ensures
      var q := s.lanes[t.l].slots[t.j].p;
      q in s.tasks && !Entered(s.tasks[q]) ==> LetsIn(c, s, t.l, q)
  {
    var q := s.lanes[t.l].slots[t.j].p;
    if q in s.tasks && !Entered(s.tasks[q]) {
      TrapWorks(c, plan, s, t, h, t.j, q);
    }
  }

  /** One iteration with the trap set. */
  lemma PinnedStep(c: Config, plan: Plan, s: State, t: Trap, h: Ptr, off: nat) returns (next: (State, nat))
    requires Pinned(c, plan, s, t, h) && HeadBusy(s, t.l, off) && off < MAX_ITERATIONS
    requires s.lanes[t.l].head + off <= t.j < |s.lanes[t.l].slots|
    ensures next == Iterate(c, s, t.l, off, STAY) && Pinned(c, plan, next.0, t, h)
    ensures HeadBusy(next.0, t.l, next.1) && next.1 <= off + 1 && t.j < |next.0.lanes[t.l].slots|
    ensures next.0.lanes[t.l].head + next.1 == s.lanes[t.l].head + off + 1
    ensures s.lanes[t.l].head + off == t.j ==> Sprung(c, plan, next.0, t, h)
  {
    next := Iterate(c, s, t.l, off, STAY);
    PinnedIterate(c, plan, s, t, h, off, next);
    CursorMoves(c, s, t.l, off, STAY, next);
    assert SameSlotTasks(s.lanes[t.l], next.0.lanes[t.l]);
    if s.lanes[t.l].head + off == t.j {
      LastStep(c, plan, s, t, h, off, next.0);
    }
  }

  lemma LastStep(c: Config, plan: Plan, s: State, t: Trap, h: Ptr, off: nat, s': State)
    requires Pinned(c, plan, s, t, h) && s.lanes[t.l].head + off == t.j < |s.lanes[t.l].slots|
    requires s' == Iterate(c, s, t.l, off, STAY).0
    ensures Admitted(s.lanes[t.l].slots[t.j].p) in s'.log
  {
    OvertakerLetIn(c, plan, s, t, h);
    AdmitsHere(c, s, t.l, off, s.lanes[t.l].slots[t.j].p, s');
  }

  /** `n` iterations before slot j is passed. */
  ghost predicate Closing(c: Config, plan: Plan, s: State, t: Trap, h: Ptr, off: nat, n: nat) {
    && n > 0 && Pinned(c, plan, s, t, h) && HeadBusy(s, t.l, off) && t.j < |s.lanes[t.l].slots|
    && s.lanes[t.l].head + off + n == t.j + 1 && off + n <= MAX_ITERATIONS
  }

  /** One iteration carries `p` with `n` to go to `p` with one less to go, and at last to `q`. */
  ghost predicate Carries(
    c: Config, l: nat, s: State, off: nat, n: nat, p: (State, nat, nat) -> bool, q: State -> bool) {
    p(s, off, n) ==>
      && n > 0 && l < |s.lanes| && s.lanes[l].head + off < |s.lanes[l].slots|
      && var next := Iterate(c, s, l, off, STAY);
         if n == 1 then q(next.0) else p(next.0, next.1, n - 1)
  }

  lemma {:induction false} StayOnReaches(
    c: Config, s: State, l: nat, off: nat, k: nat, p: (State, nat, nat) -> bool, q: State -> bool)
    requires l < |s.lanes| && p(s, off, k) && forall x: State, o: nat, n: nat :: Carries(c, l, x, o, n, p, q)
    ensures q(StayOn(c, s, l, off, k))
    decreases k
  {
    assert Carries(c, l, s, off, k, p, q);
    var next := Iterate(c, s, l, off, STAY);
    if k == 1 {
      assert StayOn(c, next.0, l, next.1, k - 1) == next.0;
    } else {
      StayOnReaches(c, next.0, l, next.1, k - 1, p, q);
    }
    assert StayOn(c, s, l, off, k) == StayOn(c, next.0, l, next.1, k - 1);
  }

  /** So the trap springs when the pass reaches slot j. */
  lemma StayAdmits(c: Config, plan: Plan, s: State, t: Trap, h: Ptr, k: nat)
    requires Closing(c, plan, s, t, h, 0, k)
    ensures Sprung(c, plan, StayOn(c, s, t.l, 0, k), t, h)
  {
    var p := (x: State, o: nat, n: nat) => Closing(c, plan, x, t, h, o, n);
    var q := (x: State) => Sprung(c, plan, x, t, h);
    AllCarry(c, plan, t, h, p, q);
    StayOnReaches(c, s, t.l, 0, k, p, q);
  }

  lemma AllCarry(c: Config, plan: Plan, t: Trap, h: Ptr, p: (State, nat, nat) -> bool, q: State -> bool)
    requires forall x: State, o: nat, n: nat :: p(x, o, n) == Closing(c, plan, x, t, h, o, n)
    requires forall x: State :: q(x) == Sprung(c, plan, x, t, h)
    ensures forall x: State, o: nat, n: nat :: Carries(c, t.l, x, o, n, p, q)
  {
    forall x: State, o: nat, n: nat ensures Carries(c, t.l, x, o, n, p, q) {
      assert p(x, o, n) == Closing(c, plan, x, t, h, o, n);
      if Closing(c, plan, x, t, h, o, n) {
        OneCarries(c, plan, t, h, p, q, x, o, n, Iterate(c, x, t.l, o, STAY));
      }
    }
  }

  lemma OneCarries(
    c: Config, plan: Plan, t: Trap, h: Ptr, p: (State, nat, nat) -> bool, q: State -> bool,
    s: State, off: nat, n: nat, next: (State, nat))
    requires Closing(c, plan, s, t, h, off, n) && next == Iterate(c, s, t.l, off, STAY)
    requires forall x: State, o: nat, m: nat :: p(x, o, m) == Closing(c, plan, x, t, h, o, m)
    requires forall x: State :: q(x) == Sprung(c, plan, x, t, h)
    ensures Carries(c, t.l, s, off, n, p, q)
  {
    ClosingCarries(c, plan, s, t, h, off, n, next);
    assert q(next.0) == Sprung(c, plan, next.0, t, h);
    assert n > 1 ==> p(next.0, next.1, n - 1) == Closing(c, plan, next.0, t, h, next.1, n - 1);
  }

  lemma ClosingCarries(
    c: Config, plan: Plan, s: State, t: Trap, h: Ptr, off: nat, n: nat, next: (State, nat))
    requires Closing(c, plan, s, t, h, off, n) && next == Iterate(c, s, t.l, off, STAY)
    ensures if n == 1 then Sprung(c, plan, next.0, t, h) else Closing(c, plan, next.0, t, h, next.1, n - 1)
  {
    var same := PinnedStep(c, plan, s, t, h, off);
  }

  /** Slot j was admitted while slot i waits. */
  ghost predicate Sprung(c: Config, plan: Plan, s: State, t: Trap, h: Ptr) {
    && Pinned(c, plan, s, t, h) && t.j < |s.lanes[t.l].slots|
    && Admitted(s.lanes[t.l].slots[t.j].p) in s.log
  }

  lemma SprungBreaks(c: Config, plan: Plan, s: State, t: Trap, h: Ptr)
    requires Sprung(c, plan, s, t, h)
    ensures !StartsInOrder(s) && Follows(plan, s)
  {
    TrapFits(c, s, plan, t);
    var q, w := s.lanes[t.l].slots[t.j].p, s.lanes[t.l].slots[t.i].p;
    assert Waits(s, w);
    var b :| 0 <= b < |s.log| && s.log[b] == Admitted(q);
    assert Skips(s, t.l, t.i, t.j, b);
  }

  lemma Spring(c: Config, plan: Plan, s: State, t: Trap, h: Ptr) returns (polls: seq<Poll>)
    requires Pinned(c, plan, s, t, h) && |s.lanes[t.l].slots| == t.j + 1
    ensures Bounded(polls) && !StartsInOrder(Execute(c, s, polls)) && Follows(plan, Execute(c, s, polls))
  {
    TrapFits(c, s, plan, t);
    var k := t.j + 1 - Base(t);
    StayAdmits(c, plan, s, t, h, k);
    SprungBreaks(c, plan, StayOn(c, s, t.l, 0, k), t, h);
    polls := StayPoll(c, s, t.l, k, StayOn(c, s, t.l, 0, k));
  }

  lemma StayPoll(c: Config, s: State, l: nat, k: nat, s': State) returns (polls: seq<Poll>)
    requires l < |s.lanes| && k <= MAX_ITERATIONS && s' == StayOn(c, s, l, 0, k)
    ensures Bounded(polls) && Execute(c, s, polls) == s'
  {
    StaysIsStayOn(c, s, l, 0, k);
    OnePass(c, s, l, Stays(k));
    polls := [Poll(l, Stays(k))];
  }

  // ---------------------------------------------------------------- setting the trap

  lemma SetTrap(c: Config, plan: Plan, s: State, t: Trap) returns (polls: seq<Poll>, s': State, h: Ptr)
    requires Idle(c, plan, s) && TrapIn(c, s, plan, t) && !c.exclusiveRoots && AllFresh(plan)
    requires t.m < |plan| && t.l < |plan|
    requires |s.lanes[t.m].slots| == t.x && (t.m != t.l ==> |s.lanes[t.l].slots| == t.i)
    ensures Bounded(polls) && s' == Execute(c, s, polls)
    ensures Pinned(c, plan, s', t, h) && |s'.lanes[t.l].slots| <= t.j
  {
    TrapFits(c, s, plan, t);
    h := Unused(s.born.Keys);
    var e := Emplace(t.m, plan[t.m][t.x], h);
    var s1 := ApplyEnv(c, s, e);
    ArriveIdle(c, plan, s, t.m, h, s1);
    TrapLonger(c, s, plan, t, t.m, 1, s1);
    s' := HolderSet(c, plan, s1, t, h);
    TickIsPoll(c, s, t.m, e);
    polls := TickPoll(t.m, e);
  }

  lemma HolderSet(c: Config, plan: Plan, s: State, t: Trap, h: Ptr) returns (s': State)
    requires Inv(c, s) && InReach(s) && Follows(plan, s) && TrapIn(c, s, plan, t) && t.m < |plan| && t.l < |plan|
    requires OpenAt(c, s, t.m, 0, h) && s.lanes[t.m].laneId !in s.groups && s.tasks.Keys == {h}
    requires Fresh(s.tasks[h]) && |s.lanes[t.m].slots| == t.x + 1 && s.lanes[t.m].head == t.x
    requires t.m != t.l ==> |s.lanes[t.l].slots| == t.i == s.lanes[t.l].head
    ensures s' == Iterate(c, s, t.m, 0, STAY).0
    ensures Pinned(c, plan, s', t, h) && |s'.lanes[t.l].slots| <= t.j
  {
    TrapFits(c, s, plan, t);
    s' := Iterate(c, s, t.m, 0, STAY).0;
    PlannedRoot(c, plan, s, t.m, t.x, h);
    HolderEnters(c, s, t.m, h, s');
    PollOnward(c, s, t.m, STAY, s');
    FollowsStill(plan, s, s');
    LayoutKept(c, s, t.m, 0, STAY, s');
    TrapStill(c, s, plan, t, s');
    assert SameSlotTasks(s.lanes[t.m], s'.lanes[t.m]) && SameSlotTasks(s.lanes[t.l], s'.lanes[t.l]);
    assert Holds(c, s', t, h);
    BaseKept(c, s, t, h, s');
    CardinalityMonotone(s'.tasks.Keys, {h});
    assert |s'.tasks| == |s'.tasks.Keys|;
  }

  lemma StartsIdle(c: Config, plan: Plan, s: State)
    requires Initial(s) && |plan| == |s.lanes|
    ensures Idle(c, plan, s)
  {
    InitInv(c, s);
    forall l: nat, i: nat ensures AsPlanned(plan, s, l, i) {}
  }

  /** Arrivals at risk: a run of them, with passes of at most 1024 iterations, that breaks the order. */
  lemma RiskyArrivalsCanBreakOrder(c: Config, s0: State, plan: Plan, t: Trap) returns (polls: seq<Poll>)
    requires Initial(s0) && !c.exclusiveRoots && |plan| == |s0.lanes| && AllFresh(plan) && TrapIn(c, s0, plan, t)
    ensures Bounded(polls) && Follows(plan, Execute(c, s0, polls)) && !StartsInOrder(Execute(c, s0, polls))
  {
    TrapFits(c, s0, plan, t);
    StartsIdle(c, plan, s0);
    var a, s1 := ServeTo(c, plan, s0, t.m, t.x);
    TrapLonger(c, s0, plan, t, t.m, t.x, s1);
    if t.m == t.l {
      var more := SetAndSpring(c, plan, s1, t);
      TwoLegs(c, s0, a, s1, more, Execute(c, s1, more));
      polls := a + more;
    } else {
      var b, s2 := ServeTo(c, plan, s1, t.l, t.i);
      TrapLonger(c, s1, plan, t, t.l, t.i, s2);
      TwoLegs(c, s0, a, s1, b, s2);
      var more := SetAndSpring(c, plan, s2, t);
      TwoLegs(c, s0, a + b, s2, more, Execute(c, s2, more));
      polls := a + b + more;
    }
  }

  lemma SetAndSpring(c: Config, plan: Plan, s: State, t: Trap) returns (polls: seq<Poll>)
    requires Idle(c, plan, s) && TrapIn(c, s, plan, t) && !c.exclusiveRoots && AllFresh(plan)
    requires t.m < |plan| && t.l < |plan|
    requires |s.lanes[t.m].slots| == t.x && (t.m != t.l ==> |s.lanes[t.l].slots| == t.i)
    ensures Bounded(polls) && Follows(plan, Execute(c, s, polls)) && !StartsInOrder(Execute(c, s, polls))
  {
    var a, s1, h := SetTrap(c, plan, s, t);
    var b, s2 := Fill(c, plan, s1, t, h);
    TwoLegs(c, s, a, s1, b, s2);
    var d := Spring(c, plan, s2, t, h);
    TwoLegs(c, s, a + b, s2, d, Execute(c, s2, d));
    polls := a + b + d;
  }

  // ---------------------------------------------------------------- the exact condition

  /** Every bounded run in which exactly planned tasks arrive, in any interleaving, starts them in order. */
  ghost predicate AlwaysInOrder(c: Config, s0: State, plan: Plan) {
    forall polls: seq<Poll> | Bounded(polls) && Follows(plan, Execute(c, s0, polls)) ::
      StartsInOrder(Execute(c, s0, polls))
  }

  /**
   * Decided by what is to arrive, before anything runs: every schedule of the planned arrivals starts
   * the ordered tasks of each lane in emplacement order if and only if no lane has ordered tasks i < j
   * of different roots together with an ordered task of the same group and of j's root, ahead of i or
   * in another lane, within reach of one pass of 1024 iterations.
   */
  lemma ArrivalsKeepOrderExactly(c: Config, s0: State, plan: Plan)
    requires Initial(s0) && !c.exclusiveRoots && |plan| == |s0.lanes| && AllFresh(plan)
    ensures AlwaysInOrder(c, s0, plan) <==> !Risky(c, LaneIds(s0), plan)
  {
    if Risky(c, LaneIds(s0), plan) {
      var l: nat, i: nat, j: nat, m: nat, x: nat :| Risk(c, LaneIds(s0), plan, l, i, j, m, x);
      var polls := RiskyArrivalsCanBreakOrder(c, s0, plan, Trap(l, i, j, m, x));
    } else {
      forall polls: seq<Poll> | Bounded(polls) && Follows(plan, Execute(c, s0, polls))
        ensures StartsInOrder(Execute(c, s0, polls))
      {
        RiskFreeArrivalsStartInOrder(c, s0, plan, polls);
      }
    }
  }
}
