/** Whole passes and whole runs of a worker: what holds in every reachable state. */
module WorkerRuns {
  import opened HrunTypes
  import opened WorkerModel
  import opened WorkerInvariant
  import opened WorkerSteps

  // ---------------------------------------------------------------- environment steps

  lemma EmplaceLanes(c: Config, s: State, s': State, l: nat, t: Task, p: Ptr)
    requires LanesOk(s) && LiveOk(s) && l < |s.lanes| && p !in s.born && p !in s.tasks
    requires s'.lanes == s.lanes[l := s.lanes[l].(slots := s.lanes[l].slots + [Slot(p, false)])]
    requires s'.born == s.born[p := BirthOf(c, l, |s.lanes[l].slots|, t)]
    requires s'.tasks == s.tasks[p := t]
    ensures LanesOk(s') && LiveOk(s') && !IsOver(s', p)
    ensures forall q | q in s.born :: KeyOf(s', q) == KeyOf(s, q) && IsOver(s', q) == IsOver(s, q)
  {
    forall k | 0 <= k < |s'.lanes| ensures LaneOk(s', k) { assert LaneOk(s, k); }
    forall q | q in s'.born
      ensures InLane(s', q)
      ensures q in s.born ==> KeyOf(s', q) == KeyOf(s, q) && IsOver(s', q) == IsOver(s, q)
    {
      if q in s.born { assert InLane(s, q); }
    }
  }

  lemma EmplaceTasks(c: Config, s: State, s': State, l: nat, t: Task, p: Ptr)
    requires LanesOk(s) && TasksOk(c, s) && LanesOk(s') && |s.tasks| + 1 < U32_LIMIT && l < |s'.lanes|
    requires Fresh(t) && p !in s.born && p !in s.tasks && s'.tasks == s.tasks[p := t]
    requires p in s'.born && !IsOver(s', p) && s'.born == s.born[p := s'.born[p]]
    requires s'.born[p] == BirthOf(c, l, s'.born[p].pos, t)
    requires forall q | q in s.born :: KeyOf(s', q) == KeyOf(s, q) && IsOver(s', q) == IsOver(s, q)
    ensures TasksOk(c, s')
  {
    assert s'.tasks.Keys == s.tasks.Keys + {p};
    assert |s'.tasks| == |s'.tasks.Keys|;
    forall q | q in s'.tasks ensures Housed(c, s', q) {
      if q != p {
        assert q in s.tasks && Housed(c, s, q);
        HousedStill(c, s, s', q);
      }
    }
  }

  lemma EmplaceLog(s: State, s': State, p: Ptr)
    requires LanesOk(s) && LiveOk(s) && LogOk(s) && LanesOk(s') && LiveOk(s')
    requires p !in s.born && p in s'.born && s'.born == s.born[p := s'.born[p]] && s'.log == s.log
    requires !IsOver(s', p) && s'.tasks == s.tasks[p := s'.tasks[p]] && !Entered(s'.tasks[p]) && !s'.tasks[p].hasStack
    requires forall q | q in s.born :: IsOver(s', q) == IsOver(s, q)
    ensures LogOk(s')
  {
    assert forall e: Event | e in s.log :: e.p in s.born;
    forall q | q in s'.born ensures Tally(s', q) {
      if q != p { assert Tally(s, q); }
    }
  }

  lemma NewcomerHoldsNothing(c: Config, tasks: map<Ptr, Task>, groups: map<u32, GroupNode>, p: Ptr, t: Task)
    requires GroupsOk(c, tasks, groups) && p !in tasks && !Entered(t)
    ensures GroupsOk(c, tasks[p := t], groups)
  {
    var tasks' := tasks[p := t];
    forall k: u32 ensures GroupOk(c, tasks', groups, k) {
      assert GroupOk(c, tasks, groups, k);
      HoldersAfterUpdate(c, tasks, p, t, k);
      assert Holders(c, tasks', k) == Holders(c, tasks, k);
    }
  }

  lemma DeparterHeldNothing(
    c: Config, tasks: map<Ptr, Task>, groups: map<u32, GroupNode>, p: Ptr, tasks': map<Ptr, Task>)
    requires GroupsOk(c, tasks, groups) && p in tasks && Complete in tasks[p].flags && tasks' == tasks - {p}
    ensures GroupsOk(c, tasks', groups)
  {
    forall k: u32 ensures GroupOk(c, tasks', groups, k) {
      assert GroupOk(c, tasks, groups, k);
      HoldersAfterDelete(c, tasks, p, k);
      assert Holders(c, tasks', k) == Holders(c, tasks, k);
    }
  }

  lemma EmplaceInv(c: Config, s: State, l: nat, t: Task, p: Ptr)
    requires Inv(c, s)
    ensures Inv(c, ApplyEnv(c, s, Emplace(l, t, p)))
  {
    var s' := ApplyEnv(c, s, Emplace(l, t, p));
    if s' != s {
      EmplaceLanes(c, s, s', l, t, p);
      EmplaceTasks(c, s, s', l, t, p);
      EmplaceLog(s, s', p);
      NewcomerHoldsNothing(c, s.tasks, s.groups, p, t);
    }
  }

  lemma FinishedTask(c: Config, t: Task, t': Task, key: u32, b: Birth)
    requires TaskOk(c, t, key, b) && Complete !in t.flags && (Locking(c, t) ==> DisableRun in t.flags)
    requires t' == t.(flags := t.flags + {ModuleComplete})
    ensures TaskOk(c, t', key, b) && Complete !in t'.flags && Entered(t') == Entered(t)
    ensures forall k: u32 :: Holding(c, t', k) <==> Holding(c, t, k)
  {}

  /** Marking a task in a way that neither its group nor the log can see. */
  lemma MarkedInv(c: Config, s: State, s': State, p: Ptr)
    requires Inv(c, s) && p in s.tasks && p in s'.tasks && InLane(s, p) && !IsOver(s, p)
    requires s' == s.(tasks := s.tasks[p := s'.tasks[p]])
    requires s'.tasks[p].root == s.tasks[p].root && s'.tasks[p].hasStack == s.tasks[p].hasStack
    requires TaskOk(c, s'.tasks[p], KeyOf(s, p), s.born[p]) && Complete !in s'.tasks[p].flags
    requires Entered(s'.tasks[p]) == Entered(s.tasks[p])
    requires forall k: u32 :: Holding(c, s'.tasks[p], k) <==> Holding(c, s.tasks[p], k)
    ensures Inv(c, s')
  {
    ReplacedTask(c, s, s', p);
    GroupsSame(c, s.tasks, s.groups, p, s'.tasks[p], s'.tasks);
    MarkedLog(s, s', p);
  }

  lemma MarkedLog(s: State, s': State, p: Ptr)
    requires LanesOk(s) && LiveOk(s) && LogOk(s) && LanesOk(s') && LiveOk(s')
    requires p in s.tasks && p in s'.tasks && s' == s.(tasks := s.tasks[p := s'.tasks[p]])
    requires Entered(s'.tasks[p]) == Entered(s.tasks[p]) && s'.tasks[p].hasStack == s.tasks[p].hasStack
    ensures LogOk(s')
  {
    forall q | q in s.born ensures IsOver(s', q) == IsOver(s, q) { assert InLane(s, q); }
    LogUnmoved(s, s');
  }

  lemma FinishInv(c: Config, s: State, p: Ptr)
    requires Inv(c, s)
    ensures Inv(c, ApplyEnv(c, s, Finish(p)))
  {
    var s' := ApplyEnv(c, s, Finish(p));
    if s' != s {
      assert InLane(s, p) && !IsOver(s, p);
      FinishedTask(c, s.tasks[p], s'.tasks[p], KeyOf(s, p), s.born[p]);
      MarkedInv(c, s, s', p);
    }
  }

  /** A step that logs nothing and changes nothing the log speaks of. */
  lemma LogUnmoved(s: State, s': State)
    requires LanesOk(s) && LiveOk(s) && LogOk(s) && LanesOk(s') && LiveOk(s')
    requires s'.born == s.born && s'.log == s.log
    requires forall q | q in s.born ::
               && IsOver(s', q) == IsOver(s, q)
               && (!IsOver(s, q) ==>
                     && Entered(s'.tasks[q]) == Entered(s.tasks[q])
                     && s'.tasks[q].hasStack == s.tasks[q].hasStack)
    ensures LogOk(s')
  {
    forall q | q in s'.born ensures Tally(s', q) { assert Tally(s, q); }
  }

  lemma ReclaimInv(c: Config, s: State, p: Ptr)
    requires Inv(c, s)
    ensures Inv(c, ApplyEnv(c, s, Reclaim(p)))
  {
    var s' := ApplyEnv(c, s, Reclaim(p));
    if s' != s {
      assert InLane(s, p) && IsOver(s, p);
      assert LanesOk(s') by {
        forall k | 0 <= k < |s'.lanes| ensures LaneOk(s', k) { assert LaneOk(s, k); }
        forall q | q in s'.born ensures InLane(s', q) { assert InLane(s, q); }
      }
      TasksAfterEnd(c, s, p, s');
      DeparterHeldNothing(c, s.tasks, s.groups, p, s'.tasks);
      LogUnmoved(s, s');
    }
  }

  /** `b` is `a` some time later: slots only grow and close, only closed slots are popped. */
  ghost predicate Grew(a: Lane, b: Lane) {
    && a.laneId == b.laneId
    && a.head <= b.head && |a.slots| <= |b.slots|
    && (forall i | 0 <= i < |a.slots| ::
          b.slots[i].p == a.slots[i].p && (a.slots[i].complete ==> b.slots[i].complete))
    && a.head <= |a.slots| && b.head <= |b.slots|
    && (forall i | a.head <= i < b.head :: b.slots[i].complete)
  }

  ghost predicate AllGrew(s: State, s': State) {
    |s'.lanes| == |s.lanes| && forall l | 0 <= l < |s.lanes| :: Grew(s.lanes[l], s'.lanes[l])
  }

  /** Other threads append to a lane and do nothing else to it. */
  ghost predicate OnlyAppended(s: State, s': State) {
    && |s'.lanes| == |s.lanes|
    && forall l | 0 <= l < |s.lanes| ::
         && s'.lanes[l].laneId == s.lanes[l].laneId && s'.lanes[l].head == s.lanes[l].head
         && s.lanes[l].slots <= s'.lanes[l].slots
  }

  lemma {:induction false} EnvAppends(c: Config, s: State, env: seq<EnvStep>)
    ensures OnlyAppended(s, ApplyAll(c, s, env))
    decreases env
  {
    if env != [] {
      assert OnlyAppended(s, ApplyEnv(c, s, env[0]));
      EnvAppends(c, ApplyEnv(c, s, env[0]), env[1..]);
    }
  }

  ghost predicate HeadsOk(s: State) {
    forall l | 0 <= l < |s.lanes| :: s.lanes[l].head <= |s.lanes[l].slots|
  }

  lemma AppendedGrew(s: State, s': State)
    requires OnlyAppended(s, s') && HeadsOk(s)
    ensures AllGrew(s, s')
  {}

  lemma EnvStepInv(c: Config, s: State, e: EnvStep)
    requires Inv(c, s)
    ensures Inv(c, ApplyEnv(c, s, e))
  {
    match e {
      case Emplace(l, t, p) => EmplaceInv(c, s, l, t, p);
      case Finish(p) => FinishInv(c, s, p);
      case Reclaim(p) => ReclaimInv(c, s, p);
    }
  }

  lemma {:induction false} EnvInv(c: Config, s: State, env: seq<EnvStep>)
    requires Inv(c, s)
    ensures Inv(c, ApplyAll(c, s, env))
    decreases env
  {
    if env != [] {
      EnvStepInv(c, s, env[0]);
      EnvInv(c, ApplyEnv(c, s, env[0]), env[1..]);
    }
  }

  // ---------------------------------------------------------------- passes

  /** Once the loop has left an unfinished task behind, that task is the head of the lane. */
  ghost predicate HeadBusy(s: State, l: nat, off: nat) {
    off > 0 && l < |s.lanes| ==> s.lanes[l].head < |s.lanes[l].slots| && !s.lanes[l].slots[s.lanes[l].head].complete
  }

  /** Closing (or not) the examined slot and passing over it. */
  lemma SlotPassed(a: Lane, closed: Lane, off: nat)
    requires a.head + off < |a.slots| && (off > 0 ==> !a.slots[a.head].complete)
    requires closed.laneId == a.laneId && closed.head == a.head
    requires closed.slots == a.slots[a.head + off := a.slots[a.head + off].(complete := true)]
    ensures
      var (b, off') := PopTask(closed, off);
      && Grew(a, b) && b.head + off' == a.head + off + 1
      && (off' > 0 ==> b.head < |b.slots| && !b.slots[b.head].complete)
  {}

  /** The lanes after one iteration: only lane `l` moves, and only by closing and passing a slot. */
  lemma IterateLane(c: Config, s: State, l: nat, off: nat, eff: Effect)
    requires l < |s.lanes| && s.lanes[l].head + off < |s.lanes[l].slots|
    ensures
      var (s', off') := Iterate(c, s, l, off, eff);
      var a := s.lanes[l];
      var pos := a.head + off;
      var closed := a.(slots := a.slots[pos := a.slots[pos].(complete := true)]);
      && s'.lanes == s.lanes[l := s'.lanes[l]]
      && (|| (s'.lanes[l] == a && off' == off + 1 && !a.slots[pos].complete)
          || (s'.lanes[l], off') == PopTask(closed, off))
  {
    var a := s.lanes[l];
    var pos := a.head + off;
    if a.slots[pos].complete {
      assert a.slots == a.slots[pos := a.slots[pos].(complete := true)];
    }
  }

  lemma IterateMoves(c: Config, s: State, l: nat, off: nat, eff: Effect)
    requires l < |s.lanes| && s.lanes[l].head + off < |s.lanes[l].slots| && HeadBusy(s, l, off) && HeadsOk(s)
    ensures
      var (s', off') := Iterate(c, s, l, off, eff);
      && AllGrew(s, s') && HeadBusy(s', l, off')
      && s'.lanes[l].head + off' == s.lanes[l].head + off + 1
  {
    var next := Iterate(c, s, l, off, eff);
    var a := s.lanes[l];
    IterateLane(c, s, l, off, eff);
    SlotPassed(a, a.(slots := a.slots[a.head + off := a.slots[a.head + off].(complete := true)]), off);
    forall k | 0 <= k < |s.lanes| ensures Grew(s.lanes[k], next.0.lanes[k]) {
      assert k != l ==> next.0.lanes[k] == s.lanes[k];
    }
  }

  lemma GrewTransitive(s: State, s1: State, s2: State)
    requires AllGrew(s, s1) && AllGrew(s1, s2)
    ensures AllGrew(s, s2)
  {
    forall l | 0 <= l < |s.lanes| ensures Grew(s.lanes[l], s2.lanes[l]) {
      var a, b, d := s.lanes[l], s1.lanes[l], s2.lanes[l];
      assert Grew(a, b) && Grew(b, d);
      forall i | a.head <= i < d.head ensures d.slots[i].complete {
        if i < b.head { assert b.slots[i].complete; }
      }
    }
  }

  lemma {:induction false} PassInv(c: Config, s: State, l: nat, off: nat, script: seq<Choice>)
    requires Inv(c, s) && l < |s.lanes|
    ensures Inv(c, PassFrom(c, s, l, off, script).s)
    decreases script
  {
    if script != [] {
      EnvInv(c, s, script[0].env);
      var s0 := ApplyAll(c, s, script[0].env);
      if s0.lanes[l].head + off < |s0.lanes[l].slots| {
        IterateInv(c, s0, l, off, script[0].eff);
        var next := Iterate(c, s0, l, off, script[0].eff);
        PassInv(c, next.0, l, next.1, script[1..]);
      }
    }
  }

  lemma {:induction false} PassGrows(c: Config, s: State, l: nat, off: nat, script: seq<Choice>)
    requires l < |s.lanes| && HeadBusy(s, l, off) && HeadsOk(s)
    ensures
      var r := PassFrom(c, s, l, off, script);
      AllGrew(s, r.s) && HeadBusy(r.s, l, r.off)
    decreases script
  {
    if script != [] {
      var s0 := ApplyAll(c, s, script[0].env);
      EnvAppends(c, s, script[0].env);
      AppendedGrew(s, s0);
      if s0.lanes[l].head + off < |s0.lanes[l].slots| {
        var next := Iterate(c, s0, l, off, script[0].eff);
        IterateMoves(c, s0, l, off, script[0].eff);
        PassGrows(c, next.0, l, next.1, script[1..]);
        GrewTransitive(s, s0, next.0);
        GrewTransitive(s, next.0, PassFrom(c, next.0, l, next.1, script[1..]).s);
      }
    }
  }

  lemma {:induction false} PassVisits(c: Config, s: State, l: nat, off: nat, script: seq<Choice>)
    requires l < |s.lanes| && HeadBusy(s, l, off) && HeadsOk(s)
    ensures
      var r := PassFrom(c, s, l, off, script);
      && |r.visited| <= |script|
      && r.s.lanes[l].head + r.off == s.lanes[l].head + off + |r.visited|
      && (forall i | 0 <= i < |r.visited| :: r.visited[i] == s.lanes[l].head + off + i)
      && (|r.visited| < |script| ==> r.s.lanes[l].head + r.off >= |r.s.lanes[l].slots|)
    decreases script
  {
    if script != [] {
      var s0 := ApplyAll(c, s, script[0].env);
      EnvAppends(c, s, script[0].env);
      if s0.lanes[l].head + off < |s0.lanes[l].slots| {
        var next := Iterate(c, s0, l, off, script[0].eff);
        IterateMoves(c, s0, l, off, script[0].eff);
        PassVisits(c, next.0, l, next.1, script[1..]);
      }
    }
  }

  /**
   * Iteration i of a pass examines exactly the i-th slot behind the head the pass began with, whatever
   * is popped or appended meanwhile; only a closed prefix is popped, the rest keeps its order, and
   * whenever the offset is positive the head of the lane is unfinished. A pass cut short saw the end.
   */
  lemma PassExaminesInOrder(c: Config, s: State, l: nat, script: seq<Choice>)
    requires Inv(c, s) && l < |s.lanes|
    ensures
      var r := PassFrom(c, s, l, 0, script);
      && AllGrew(s, r.s) && HeadBusy(r.s, l, r.off)
      && |r.visited| <= |script|
      && r.s.lanes[l].head + r.off == s.lanes[l].head + |r.visited|
      && (forall i | 0 <= i < |r.visited| :: r.visited[i] == s.lanes[l].head + i)
      && (|r.visited| < |script| ==> r.s.lanes[l].head + r.off >= |r.s.lanes[l].slots|)
  {
    assert HeadsOk(s) by {
      forall k | 0 <= k < |s.lanes| ensures s.lanes[k].head <= |s.lanes[k].slots| { assert LaneOk(s, k); }
    }
    PassGrows(c, s, l, 0, script);
    PassVisits(c, s, l, 0, script);
  }

  // ---------------------------------------------------------------- runs

  lemma {:induction false} ReachableInv(c: Config, s: State, polls: seq<Poll>)
    requires Inv(c, s)
    ensures Inv(c, Execute(c, s, polls))
    decreases polls
  {
    if polls == [] {
    } else if polls[0].lane >= |s.lanes| {
      ReachableInv(c, s, polls[1..]);
    } else {
      PassInv(c, s, polls[0].lane, 0, polls[0].script);
      ReachableInv(c, PassFrom(c, s, polls[0].lane, 0, polls[0].script).s, polls[1..]);
    }
  }

  /** By the history alone: ordered local tasks admitted and not yet ended in lanes numbered `k`. */
  ghost function Active(s: State, k: u32): set<Ptr> {
    set p | p in s.born && s.born[p].lane < |s.lanes| && s.born[p].locking && KeyOf(s, p) == k
            && Admitted(p) in s.log && Ended(p) !in s.log
  }

  lemma ActiveAreHolders(c: Config, s: State, k: u32)
    requires Inv(c, s)
    ensures Active(s, k) == Holders(c, s.tasks, k)
  {
    forall p ensures p in Active(s, k) <==> p in Holders(c, s.tasks, k) {
      if p in s.born {
        assert InLane(s, p) && Tally(s, p);
      }
    }
  }

  /**
   * In every reachable state a key is in the group table exactly when an ordered local task with that
   * key is admitted and not yet ended; the stored depth is the number of such tasks, they all share
   * the stored root, and no fatal branch of the worker was ever taken.
   */
  lemma GroupTableExact(c: Config, s0: State, polls: seq<Poll>, k: u32)
    requires Initial(s0)
    ensures
      var s := Execute(c, s0, polls);
      && !s.fault
      && (k in s.groups <==> Active(s, k) != {})
      && (k in s.groups ==> s.groups[k].depth == |Active(s, k)|)
      && (forall p | p in Active(s, k) :: p in s.tasks && k in s.groups && s.groups[k].root.Same(s.tasks[p].root))
      && (forall p, q | p in Active(s, k) && q in Active(s, k) :: s.tasks[p].root.Same(s.tasks[q].root))
  {
    var s := Execute(c, s0, polls);
    InitInv(c, s0);
    ReachableInv(c, s0, polls);
    ActiveAreHolders(c, s, k);
    assert GroupOk(c, s.tasks, s.groups, k);
  }

  /**
   * Over any number of passes a task is ended at most once, its slot is closed exactly when it was
   * ended, and once ended no access of any kind to it follows, even while the closed slot still sits
   * behind an unfinished head.
   */
  lemma EndedOnceThenUntouched(c: Config, s0: State, polls: seq<Poll>)
    requires Initial(s0)
    ensures
      var s := Execute(c, s0, polls);
      && !s.fault
      && (forall i, j | 0 <= i < j < |s.log| && s.log[i].Ended? :: s.log[j].p != s.log[i].p)
      && (forall l, i | 0 <= l < |s.lanes| && 0 <= i < |s.lanes[l].slots| ::
            s.lanes[l].slots[i].complete <==> Ended(s.lanes[l].slots[i].p) in s.log)
      && (forall l, i | 0 <= l < |s.lanes| && 0 <= i < |s.lanes[l].slots| && !s.lanes[l].slots[i].complete ::
            s.lanes[l].slots[i].p in s.tasks)
  {
    InitInv(c, s0);
    ReachableInv(c, s0, polls);
    var s := Execute(c, s0, polls);
    forall i, j | 0 <= i < j < |s.log| && s.log[i].Ended? ensures s.log[j].p != s.log[i].p {
      assert !FollowsEnd(s.log, i, j);
    }
    forall l, i | 0 <= l < |s.lanes| && 0 <= i < |s.lanes[l].slots|
      ensures s.lanes[l].slots[i].complete <==> Ended(s.lanes[l].slots[i].p) in s.log
      ensures !s.lanes[l].slots[i].complete ==> s.lanes[l].slots[i].p in s.tasks
    {
      assert LaneOk(s, l);
      var p := s.lanes[l].slots[i].p;
      assert InLane(s, p) && Tally(s, p);
    }
  }
}
