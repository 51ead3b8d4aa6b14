/** From what is to arrive in the lanes alone: which arrivals can make a task start out of order. */
module WorkerArrivals {
  import opened HrunTypes
  import opened WorkerModel
  import opened WorkerInvariant
  import opened WorkerSteps
  import opened WorkerRuns
  import opened WorkerTouch
  import opened WorkerOrder

  /** The tasks each lane is to receive, in order. */
  type Plan = seq<seq<Task>>

  /**
   * Slot j of lane l can overtake slot i: they have different roots, and slot x of lane m, of the same
   * group, can hold the group under the root of j while both lie within reach of one pass. `x` is
   * ahead of i in the same lane, or in another lane with the same lane id.
   */
  predicate Risk(c: Config, ids: seq<u32>, plan: Plan, l: nat, i: nat, j: nat, m: nat, x: nat) {
    && |ids| == |plan| && l < |plan| && m < |plan| && i < j < |plan[l]| && x < |plan[m]|
    && Locking(c, plan[l][i]) && Locking(c, plan[l][j]) && Locking(c, plan[m][x])
    && ids[m] == ids[l] && plan[m][x].root.Same(plan[l][j].root) && !plan[l][i].root.Same(plan[l][j].root)
    && if m == l then x < i && j - x < MAX_ITERATIONS else j - i < MAX_ITERATIONS
  }

  ghost predicate Risky(c: Config, ids: seq<u32>, plan: Plan) {
    exists l: nat, i: nat, j: nat, m: nat, x: nat :: Risk(c, ids, plan, l, i, j, m, x)
  }

  /** Slot `i` of lane `l` was given the task `t`. */
  ghost predicate Seen(s: State, l: nat, i: nat, t: Task) {
    && l < |s.lanes| && i < |s.lanes[l].slots| && s.lanes[l].slots[i].p in s.born
    && s.born[s.lanes[l].slots[i].p].task == t
  }

  /** So far the lanes received what was planned, and nothing else. */
  ghost predicate Follows(plan: Plan, s: State) {
    |s.lanes| == |plan| && forall l: nat, i: nat :: AsPlanned(plan, s, l, i)
  }

  ghost predicate AsPlanned(plan: Plan, s: State, l: nat, i: nat)
    requires |s.lanes| == |plan|
  {
    l < |plan| && i < |s.lanes[l].slots| ==> i < |plan[l]| && Seen(s, l, i, plan[l][i])
  }

  function LaneIds(s: State): (ids: seq<u32>)
    ensures |ids| == |s.lanes| && forall l | 0 <= l < |ids| :: ids[l] == s.lanes[l].laneId
  {
    seq(|s.lanes|, l requires 0 <= l < |s.lanes| => s.lanes[l].laneId)
  }

  // ---------------------------------------------------------------- what an overtaking takes

  /** A risk among the tasks that have arrived. */
  ghost predicate RiskSeen(
    c: Config, s: State, l: nat, i: nat, j: nat, m: nat, x: nat, ti: Task, tj: Task, tx: Task) {
    && Seen(s, l, i, ti) && Seen(s, l, j, tj) && Seen(s, m, x, tx) && i < j
    && Locking(c, ti) && Locking(c, tj) && Locking(c, tx)
    && s.lanes[m].laneId == s.lanes[l].laneId && tx.root.Same(tj.root) && !ti.root.Same(tj.root)
    && if m == l then x < i && j - x < MAX_ITERATIONS else j - i < MAX_ITERATIONS
  }

  ghost predicate AtRisk(c: Config, s: State) {
    exists l: nat, i: nat, j: nat, m: nat, x: nat, ti: Task, tj: Task, tx: Task ::
      RiskSeen(c, s, l, i, j, m, x, ti, tj, tx)
  }

  lemma SeenLater(s: State, s': State, l: nat, i: nat, t: Task)
    requires Seen(s, l, i, t) && Later(s, s')
    ensures Seen(s', l, i, t) && s'.lanes[l].laneId == s.lanes[l].laneId
  {
    assert SlotsKept(s.lanes[l], s'.lanes[l]);
  }

  lemma StaysAtRisk(c: Config, s: State, s': State)
    requires AtRisk(c, s) && Later(s, s')
    ensures AtRisk(c, s')
  {
    var l: nat, i: nat, j: nat, m: nat, x: nat, ti: Task, tj: Task, tx: Task :|
      RiskSeen(c, s, l, i, j, m, x, ti, tj, tx);
    SeenLater(s, s', l, i, ti);
    SeenLater(s, s', l, j, tj);
    SeenLater(s, s', m, x, tx);
    assert RiskSeen(c, s', l, i, j, m, x, ti, tj, tx);
  }

  lemma AtRiskOfPlan(c: Config, s: State, plan: Plan)
    requires AtRisk(c, s) && Follows(plan, s)
    ensures Risky(c, LaneIds(s), plan)
  {
    var l: nat, i: nat, j: nat, m: nat, x: nat, ti: Task, tj: Task, tx: Task :|
      RiskSeen(c, s, l, i, j, m, x, ti, tj, tx);
    assert AsPlanned(plan, s, l, i) && AsPlanned(plan, s, l, j) && AsPlanned(plan, s, m, x);
    assert Risk(c, LaneIds(s), plan, l, i, j, m, x);
  }

  /** What is known of an unfinished task in a lane. */
  lemma OpenFacts(c: Config, s: State, p: Ptr)
    requires LanesOk(s) && TasksOk(c, s) && p in s.tasks && Complete !in s.tasks[p].flags
    ensures p in s.born && Seen(s, s.born[p].lane, s.born[p].pos, s.born[p].task)
    ensures s.born[p].locking == Locking(c, s.born[p].task) && s.born[p].task.root == s.tasks[p].root
    ensures s.lanes[s.born[p].lane].head <= s.born[p].pos
  {
    assert Housed(c, s, p) && InLane(s, p);
    assert LaneOk(s, s.born[p].lane);
  }

  lemma WaiterIsOpen(c: Config, s: State, l: nat, i: nat)
    requires LanesOk(s) && LiveOk(s) && TasksOk(c, s) && LogOk(s)
    requires l < |s.lanes| && i < |s.lanes[l].slots| && Waits(s, s.lanes[l].slots[i].p)
    ensures
      var w := s.lanes[l].slots[i].p;
      w in s.tasks && Complete !in s.tasks[w].flags && s.born[w].lane == l && s.born[w].pos == i
  {
    var w := s.lanes[l].slots[i].p;
    assert LaneOk(s, l) && InLane(s, w) && Tally(s, w);
    assert Housed(c, s, w);
  }

  lemma HolderAhead(c: Config, s: State, l: nat, i: nat, h: Ptr)
    requires LanesOk(s) && LiveOk(s) && TasksOk(c, s) && LogOk(s) && StartsInOrder(s)
    requires l < |s.lanes| && i < |s.lanes[l].slots| && Waits(s, s.lanes[l].slots[i].p)
    requires h in s.tasks && Holding(c, s.tasks[h], s.lanes[l].laneId)
    ensures h in s.born && KeyOf(s, h) == s.lanes[l].laneId && s.born[h].locking
    ensures s.born[h].lane == l ==> s.born[h].pos < i
  {
    HolderKey(c, s, h, s.lanes[l].laneId);
    assert Tally(s, h);
    if s.born[h].lane == l {
      AdmittedAhead(s, l, i, h);
    }
  }

  /** Roots of the three tasks involved, from the group table. */
  lemma RootsInvolved(c: Config, s: State, l: nat, pos: nat, p: Ptr, i: nat) returns (h: Ptr)
    requires GroupsOk(c, s.tasks, s.groups) && l < |s.lanes| && i < pos < |s.lanes[l].slots|
    requires Guarded(c, s, l, pos) && Waits(s, s.lanes[l].slots[i].p) && p in s.tasks
    requires s.lanes[l].laneId in s.groups && s.groups[s.lanes[l].laneId].root.Same(s.tasks[p].root)
    ensures h in s.tasks && h in s.born && Holding(c, s.tasks[h], s.lanes[l].laneId)
    ensures s.tasks[h].root.Same(s.tasks[p].root)
    ensures !s.born[h].task.root.Same(s.born[s.lanes[l].slots[i].p].task.root)
  {
    assert Kept(c, s, l, pos, s.lanes[l].slots[i].p);
    h :| KeepsOut(c, s, l, pos, h, s.lanes[l].slots[i].p);
    assert h in Holders(c, s.tasks, s.lanes[l].laneId) && GroupOk(c, s.tasks, s.groups, s.lanes[l].laneId);
  }

  /** The breaking branch is about to be taken, past the waiting slot `i`. */
  ghost predicate Caught(c: Config, s: State, l: nat, off: nat, i: nat) {
    && l < |s.lanes| && s.lanes[l].head + off < |s.lanes[l].slots| && i < s.lanes[l].head + off
    && Waits(s, s.lanes[l].slots[i].p)
    && var p := s.lanes[l].slots[s.lanes[l].head + off].p;
       && p in s.tasks && p in s.born && s.born[p].lane == l && s.born[p].pos == s.lanes[l].head + off
       && Unfinished(c, s.tasks[p])
       && s.lanes[l].laneId in s.groups && s.groups[s.lanes[l].laneId].root.Same(s.tasks[p].root)
  }

  lemma OvertakenSlot(c: Config, s: State, l: nat, off: nat) returns (i: nat)
    requires LanesOk(s) && LiveOk(s) && TasksOk(c, s)
    requires l < |s.lanes| && s.lanes[l].head + off < |s.lanes[l].slots| && Overtakes(c, s, l, off)
    ensures Caught(c, s, l, off, i)
  {
    UnfinishedIsOpen(c, s, l, s.lanes[l].head + off);
    i :| 0 <= i < s.lanes[l].head + off && Waits(s, s.lanes[l].slots[i].p);
  }

  lemma OvertakingAtRisk(c: Config, s: State, l: nat, off: nat, i: nat)
    requires LanesOk(s) && LiveOk(s) && TasksOk(c, s) && GroupsOk(c, s.tasks, s.groups) && LogOk(s)
    requires StartsInOrder(s) && Caught(c, s, l, off, i)
    requires Guarded(c, s, l, s.lanes[l].head + off) && off < MAX_ITERATIONS
    ensures AtRisk(c, s)
  {
    var pos := s.lanes[l].head + off;
    OvertakenAtRisk(c, s, l, off, pos, s.lanes[l].slots[pos].p, i);
  }

  lemma OvertakeAtRisk(c: Config, s: State, l: nat, off: nat)
    requires LanesOk(s) && LiveOk(s) && TasksOk(c, s) && GroupsOk(c, s.tasks, s.groups) && LogOk(s)
    requires StartsInOrder(s) && l < |s.lanes| && s.lanes[l].head + off < |s.lanes[l].slots|
    requires Guarded(c, s, l, s.lanes[l].head + off) && off < MAX_ITERATIONS && Overtakes(c, s, l, off)
    ensures AtRisk(c, s)
  {
    var i := OvertakenSlot(c, s, l, off);
    OvertakingAtRisk(c, s, l, off, i);
  }

  /** An overtaking in reach of one pass puts three arrived tasks at risk. */
  lemma OvertakenAtRisk(c: Config, s: State, l: nat, off: nat, pos: nat, p: Ptr, i: nat)
    requires LanesOk(s) && LiveOk(s) && TasksOk(c, s) && GroupsOk(c, s.tasks, s.groups) && LogOk(s)
    requires StartsInOrder(s) && l < |s.lanes| && pos == s.lanes[l].head + off < |s.lanes[l].slots|
    requires Guarded(c, s, l, pos) && off < MAX_ITERATIONS && i < pos && Waits(s, s.lanes[l].slots[i].p)
    requires p in s.tasks && p in s.born && s.born[p].lane == l && s.born[p].pos == pos && Unfinished(c, s.tasks[p])
    requires s.lanes[l].laneId in s.groups && s.groups[s.lanes[l].laneId].root.Same(s.tasks[p].root)
    ensures AtRisk(c, s)
  {
    var h := RootsInvolved(c, s, l, pos, p, i);
    WaiterIsOpen(c, s, l, i);
    HolderAhead(c, s, l, i, h);
    ThreeAtRisk(c, s, l, off, i, p, s.lanes[l].slots[i].p, h);
  }

  lemma ThreeAtRisk(c: Config, s: State, l: nat, off: nat, i: nat, p: Ptr, w: Ptr, h: Ptr)
    requires LanesOk(s) && TasksOk(c, s) && l < |s.lanes| && off < MAX_ITERATIONS
    requires p in s.tasks && p in s.born && Unfinished(c, s.tasks[p])
    requires s.born[p].lane == l && s.born[p].pos == s.lanes[l].head + off && i < s.born[p].pos
    requires w in s.tasks && w in s.born && Complete !in s.tasks[w].flags && s.born[w].locking
    requires s.born[w].lane == l && s.born[w].pos == i
    requires h in s.tasks && h in s.born && Complete !in s.tasks[h].flags && s.born[h].locking
    requires KeyOf(s, h) == s.lanes[l].laneId && (s.born[h].lane == l ==> s.born[h].pos < i)
    requires s.tasks[h].root.Same(s.tasks[p].root) && !s.born[h].task.root.Same(s.born[w].task.root)
    ensures AtRisk(c, s)
  {
    OpenFacts(c, s, p);
    OpenFacts(c, s, w);
    OpenFacts(c, s, h);
    assert Housed(c, s, p);
    assert RiskSeen(c, s, l, i, s.born[p].pos, s.born[h].lane, s.born[h].pos,
                    s.born[w].task, s.born[p].task, s.born[h].task);
  }

  // ---------------------------------------------------------------- runs

  lemma {:induction false} PassSafe(c: Config, s: State, l: nat, off: nat, script: seq<Choice>)
    requires Ready(c, s, l, off) && off + |script| <= MAX_ITERATIONS
    ensures PassClear(c, s, l, off, script) || AtRisk(c, PassFrom(c, s, l, off, script).s)
    decreases script
  {
    if script != [] {
      var s0 := ApplyAll(c, s, script[0].env);
      EnvReady(c, s, l, off, script[0].env);
      if s0.lanes[l].head + off < |s0.lanes[l].slots| {
        var next := Iterate(c, s0, l, off, script[0].eff);
        if Overtakes(c, s0, l, off) {
          OvertakeAtRisk(c, s0, l, off);
          RiskThroughPass(c, s0, l, off, script[0].eff, next, script[1..]);
        } else {
          IterateReady(c, s0, l, off, script[0].eff, next);
          CursorMoves(c, s0, l, off, script[0].eff, next);
          PassSafe(c, next.0, l, next.1, script[1..]);
        }
      }
    }
  }

  lemma RiskThroughPass(
    c: Config, s: State, l: nat, off: nat, eff: Effect, next: (State, nat), script: seq<Choice>)
    requires Inv(c, s) && AtRisk(c, s) && l < |s.lanes| && s.lanes[l].head + off < |s.lanes[l].slots|
    requires next == Iterate(c, s, l, off, eff)
    ensures AtRisk(c, PassFrom(c, next.0, l, next.1, script).s)
  {
    IterateInv(c, s, l, off, eff);
    IterateLater(c, s, l, off, eff, next.0);
    StaysAtRisk(c, s, next.0);
    PassLater(c, next.0, l, next.1, script);
    StaysAtRisk(c, next.0, PassFrom(c, next.0, l, next.1, script).s);
  }

  lemma {:induction false} RunSafe(c: Config, s: State, polls: seq<Poll>)
    requires Inv(c, s) && StartsInOrder(s) && Bounded(polls)
    ensures StartsInOrder(Execute(c, s, polls)) || AtRisk(c, Execute(c, s, polls))
    decreases polls
  {
    if polls == [] {
    } else if polls[0].lane >= |s.lanes| {
      RunSafe(c, s, polls[1..]);
    } else {
      var l, script := polls[0].lane, polls[0].script;
      var s1 := PassFrom(c, s, l, 0, script).s;
      NobodyWaitsBeforeHead(c, s, l);
      PassInv(c, s, l, 0, script);
      PassSafe(c, s, l, 0, script);
      if PassClear(c, s, l, 0, script) {
        PassKeepsOrderExactly(c, s, l, 0, script);
        RunSafe(c, s1, polls[1..]);
      } else {
        RunLater(c, s1, polls[1..]);
        StaysAtRisk(c, s1, Execute(c, s1, polls[1..]));
      }
    }
  }

  /** Arrivals without a risk start in order, however they are interleaved with polls and with each other. */
  lemma RiskFreeArrivalsStartInOrder(c: Config, s0: State, plan: Plan, polls: seq<Poll>)
    requires Initial(s0) && Bounded(polls) && Follows(plan, Execute(c, s0, polls))
    requires !Risky(c, LaneIds(s0), plan)
    ensures StartsInOrder(Execute(c, s0, polls))
  {
    InitInv(c, s0);
    RunSafe(c, s0, polls);
    RunLater(c, s0, polls);
    var s := Execute(c, s0, polls);
    assert LaneIds(s) == LaneIds(s0) by {
      forall l | 0 <= l < |s0.lanes| ensures LaneIds(s)[l] == LaneIds(s0)[l] {
        assert SlotsKept(s0.lanes[l], s.lanes[l]);
      }
    }
    if AtRisk(c, s) {
      AtRiskOfPlan(c, s, plan);
    }
  }
}
