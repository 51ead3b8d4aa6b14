/** Every step of the worker and of its environment keeps the invariant. */
module WorkerSteps {
  import opened HrunTypes
  import opened WorkerModel
  import opened WorkerInvariant

  /** All that a step on one unfinished task needs to know about it. */
  ghost predicate OpenTask(c: Config, s: State, l: nat, p: Ptr) {
    && l < |s.lanes| && p in s.tasks
    && InLane(s, p) && s.born[p].lane == l && !IsOver(s, p)
    && Complete !in s.tasks[p].flags
    && TaskOk(c, s.tasks[p], s.lanes[l].laneId, s.born[p])
  }

  lemma UnfinishedIsOpen(c: Config, s: State, l: nat, pos: nat)
    requires LanesOk(s) && LiveOk(s) && TasksOk(c, s)
    requires l < |s.lanes| && pos < |s.lanes[l].slots| && !s.lanes[l].slots[pos].complete
    ensures
      var p := s.lanes[l].slots[pos].p;
      OpenTask(c, s, l, p) && s.born[p].pos == pos
  {
    assert LaneOk(s, l);
    assert InLane(s, s.lanes[l].slots[pos].p);
  }

  // ---------------------------------------------------------------- admission

  lemma RewriteKeepsOrder(c: Config, t: Task, eff: Effect)
    ensures Locking(c, RunBody(t, eff)) == Locking(c, t)
  {}

  lemma DispatchOk(c: Config, t: Task, key: u32, b: Birth, eff: Effect)
    requires TaskOk(c, t, key, b) && t.laneId == key
    requires Complete !in t.flags && DisableRun !in t.flags
    ensures
      var t' := Dispatch(c, t, eff);
      && TaskOk(c, t', key, b)
      && Entered(t') && Complete !in t'.flags
      && t'.root == t.root && t'.laneId == key
      && Locking(c, t') == Locking(c, t)
      && t'.hasStack == (t.hasStack || MakesStack(c, t))
      && (MakesStack(c, t) ==> b.stacked && !t.hasStack)
  {
    RewriteKeepsOrder(c, t.(flags := t.flags + {HasStarted}, hasStack := true), eff);
    RewriteKeepsOrder(c, t.(flags := t.flags + {HasStarted}), eff);
  }

  /** What AdmitTask makes of the task itself. */
  lemma AdmittedTaskOk(c: Config, s: State, l: nat, p: Ptr, eff: Effect)
    requires OpenTask(c, s, l, p)
    ensures
      var s' := AdmitTask(c, s, l, p, eff);
      && OpenTask(c, s', l, p)
      && s'.tasks == s.tasks[p := s'.tasks[p]]
      && s'.lanes == s.lanes && s'.born == s.born && s'.fault == s.fault
      && s'.tasks[p].root == s.tasks[p].root
      && (ModuleComplete in s'.tasks[p].flags ==> Entered(s'.tasks[p]))
      && (ModuleComplete in s'.tasks[p].flags && Coroutine in s'.tasks[p].flags ==> s'.tasks[p].hasStack)
  {
    var t := s.tasks[p].(laneId := s.lanes[l].laneId);
    if DisableRun !in t.flags {
      DispatchOk(c, t, s.lanes[l].laneId, s.born[p], eff);
    }
  }

  lemma AdmitGroups(c: Config, s: State, l: nat, p: Ptr, eff: Effect)
    requires OpenTask(c, s, l, p) && GroupsOk(c, s.tasks, s.groups) && |s.tasks| < U32_LIMIT
    ensures
      var s' := AdmitTask(c, s, l, p, eff);
      GroupsOk(c, s'.tasks, s'.groups)
  {
    var laneId := s.lanes[l].laneId;
    var t := s.tasks[p].(laneId := laneId);
    var s' := AdmitTask(c, s, l, p, eff);
    if DisableRun in t.flags || !CheckTaskGroup(c, s.groups, t, laneId).0 {
      GroupsSame(c, s.tasks, s.groups, p, t, s'.tasks);
    } else {
      DispatchOk(c, t, laneId, s.born[p], eff);
      if Locking(c, t) && HasStarted !in t.flags {
        GroupsAfterAdmission(c, s.tasks, s.groups, p, s'.tasks[p], s'.tasks, laneId);
      } else {
        GroupsSame(c, s.tasks, s.groups, p, s'.tasks[p], s'.tasks);
      }
    }
  }

  /** Appending accesses to a task that is not over. */
  lemma AppendedLog(log: seq<Event>, es: seq<Event>, p: Ptr)
    requires NothingAfterEnd(log) && NoRepeat(log) && NoRepeat(es)
    requires Ended(p) !in log
    requires forall i | 0 <= i < |es| ::
               && es[i].p == p && (es[i].Ended? ==> i == |es| - 1)
               && (es[i].Touched? || es[i] !in log)
    ensures NothingAfterEnd(log + es) && NoRepeat(log + es)
  {
    var all := log + es;
    forall i: nat, j: nat ensures !FollowsEnd(all, i, j) && !Repeats(all, i, j) {
      if i < j < |log| {
        assert !FollowsEnd(log, i, j) && !Repeats(log, i, j);
      } else if i < |log| <= j < |all| {
        assert all[i] in log;
        assert all[j] == es[j - |log|];
        assert all[i].Ended? ==> all[i] == Ended(all[i].p);
      } else if |log| <= i < j < |all| {
        assert all[i] == es[i - |log|] && all[j] == es[j - |log|];
        assert !Repeats(es, i - |log|, j - |log|);
      }
    }
  }

  /** Tallies of the other tasks do not see events of `p`. */
  lemma OtherTallies(s: State, s': State, es: seq<Event>, p: Ptr, q: Ptr)
    requires InLane(s, q) && (!IsOver(s, q) ==> q in s.tasks) && Tally(s, q)
    requires InLane(s', q) && (!IsOver(s', q) ==> q in s'.tasks)
    requires q != p && forall i | 0 <= i < |es| :: es[i].p == p
    requires s'.log == s.log + es
    requires s'.born[q] == s.born[q] && IsOver(s', q) == IsOver(s, q)
    requires !IsOver(s, q) ==> s'.tasks[q] == s.tasks[q]
    ensures Tally(s', q)
  {
    assert forall e | e in es :: e.p == p;
    assert forall e: Event | e.p == q :: e in s'.log <==> e in s.log;
  }

  /** The events one admission adds. */
  function AdmitEvents(c: Config, s: State, l: nat, p: Ptr): seq<Event>
    requires l < |s.lanes| && p in s.tasks
  {
    var t := s.tasks[p].(laneId := s.lanes[l].laneId);
    if DisableRun !in t.flags && CheckTaskGroup(c, s.groups, t, s.lanes[l].laneId).0 then
      [Touched(p)]
      + (if Locking(c, t) && HasStarted !in t.flags then [Admitted(p)] else [])
      + (if MakesStack(c, t) then [Stacked(p)] else [])
      + (if Remote(c, t) then [Dispersed(p)] else [])
    else
      [Touched(p)]
  }

  lemma AdmitOwnTally(c: Config, s: State, l: nat, p: Ptr, eff: Effect)
    requires OpenTask(c, s, l, p) && Tally(s, p)
    ensures
      var s' := AdmitTask(c, s, l, p, eff);
      s'.log == s.log + AdmitEvents(c, s, l, p) && InLane(s', p) && p in s'.tasks && Tally(s', p)
  {
    var s' := AdmitTask(c, s, l, p, eff);
    var t := s.tasks[p].(laneId := s.lanes[l].laneId);
    var es := AdmitEvents(c, s, l, p);
    assert s'.log == s.log + es;
    assert forall e :: e in s.log + es <==> e in s.log || e in es;
    EventsOfAdmission(c, s, l, p);
    if DisableRun !in t.flags {
      DispatchOk(c, t, s.lanes[l].laneId, s.born[p], eff);
    }
  }

  /** Which events one admission adds. */
  lemma EventsOfAdmission(c: Config, s: State, l: nat, p: Ptr)
    requires l < |s.lanes| && p in s.tasks
    ensures
      var es := AdmitEvents(c, s, l, p);
      var t := s.tasks[p].(laneId := s.lanes[l].laneId);
      var lets := DisableRun !in t.flags && CheckTaskGroup(c, s.groups, t, s.lanes[l].laneId).0;
      && Ended(p) !in es && Unstacked(p) !in es
      && (Admitted(p) in es <==> lets && Locking(c, t) && HasStarted !in t.flags)
      && (Stacked(p) in es <==> lets && MakesStack(c, t))
      && (Dispersed(p) in es <==> lets && Remote(c, t))
  {}

  /** A step on `p` alone that appends `es` to the log. */
  lemma LogExtended(s: State, s': State, es: seq<Event>, p: Ptr)
    requires LanesOk(s) && LiveOk(s) && LogOk(s) && LanesOk(s') && LiveOk(s')
    requires s'.born == s.born && s'.log == s.log + es && p in s.born
    requires Tally(s', p) && Ended(p) !in s.log && NoRepeat(es)
    requires forall i | 0 <= i < |es| ::
               && es[i].p == p && (es[i].Ended? ==> i == |es| - 1)
               && (es[i].Touched? || es[i] !in s.log)
    requires forall q | q in s.born && q != p ::
               IsOver(s', q) == IsOver(s, q) && (!IsOver(s, q) ==> s'.tasks[q] == s.tasks[q])
    ensures LogOk(s')
  {
    AppendedLog(s.log, es, p);
    forall q | q in s'.born ensures Tally(s', q) {
      if q != p {
        assert Tally(s, q);
        OtherTallies(s, s', es, p, q);
      }
    }
  }

  lemma AdmitLog(c: Config, s: State, l: nat, p: Ptr, eff: Effect, s': State)
    requires LanesOk(s) && LiveOk(s) && LogOk(s) && OpenTask(c, s, l, p)
    requires s' == AdmitTask(c, s, l, p, eff) && LanesOk(s') && LiveOk(s')
    ensures LogOk(s')
  {
    assert Tally(s, p);
    AdmitOwnTally(c, s, l, p, eff);
    AdmittedTaskOk(c, s, l, p, eff);
    NewEvents(c, s, l, p);
    LogExtended(s, s', AdmitEvents(c, s, l, p), p);
  }

  lemma NewEvents(c: Config, s: State, l: nat, p: Ptr)
    requires OpenTask(c, s, l, p) && Tally(s, p)
    ensures
      var es := AdmitEvents(c, s, l, p);
      && NoRepeat(es)
      && forall i | 0 <= i < |es| :: es[i].p == p && !es[i].Ended? && (es[i].Touched? || es[i] !in s.log)
  {}

  /** Replacing the record of a task whose slot stays open. */
  lemma ReplacedTask(c: Config, s: State, s': State, p: Ptr)
    requires LanesOk(s) && LiveOk(s) && TasksOk(c, s)
    requires s'.lanes == s.lanes && s'.born == s.born
    requires InLane(s, p) && !IsOver(s, p) && p in s.tasks && p in s'.tasks
    requires s'.tasks == s.tasks[p := s'.tasks[p]]
    requires TaskOk(c, s'.tasks[p], KeyOf(s, p), s.born[p]) && Complete !in s'.tasks[p].flags
    ensures LanesOk(s') && LiveOk(s') && TasksOk(c, s')
  {
    assert s'.tasks.Keys == s.tasks.Keys;
    assert |s'.tasks| == |s'.tasks.Keys| == |s.tasks|;
    LanesKept(s, s');
    forall q | q in s'.tasks ensures Housed(c, s', q) {
      assert q in s.tasks && Housed(c, s, q);
      if q != p { HousedStill(c, s, s', q); }
    }
  }

  lemma LanesKept(s: State, s': State)
    requires LanesOk(s) && LiveOk(s) && s'.lanes == s.lanes && s'.born == s.born && s'.tasks.Keys == s.tasks.Keys
    ensures LanesOk(s') && LiveOk(s')
    ensures forall q | q in s.born :: KeyOf(s', q) == KeyOf(s, q) && IsOver(s', q) == IsOver(s, q)
  {
    forall k | 0 <= k < |s'.lanes| ensures LaneOk(s', k) { assert LaneOk(s, k); }
    forall q | q in s'.born ensures InLane(s', q) && IsOver(s', q) == IsOver(s, q) { assert InLane(s, q); }
    forall q | q in s'.born && !IsOver(s', q) ensures q in s'.tasks {
      assert !IsOver(s, q);
    }
  }

  lemma AdmitInv(c: Config, s: State, l: nat, p: Ptr, eff: Effect)
    requires Inv(c, s) && OpenTask(c, s, l, p)
    ensures Inv(c, AdmitTask(c, s, l, p, eff))
  {
    var s' := AdmitTask(c, s, l, p, eff);
    AdmittedTaskOk(c, s, l, p, eff);
    ReplacedTask(c, s, s', p);
    AdmitGroups(c, s, l, p, eff);
    AdmitLog(c, s, l, p, eff, s');
  }

  // ---------------------------------------------------------------- end of a task

  /** A module-complete task at position `pos` of lane `l`, about to be ended. */
  ghost predicate EndingTask(c: Config, s: State, l: nat, off: nat, p: Ptr) {
    && OpenTask(c, s, l, p)
    && s.lanes[l].head + off < |s.lanes[l].slots|
    && s.born[p].pos == s.lanes[l].head + off
    && ModuleComplete in s.tasks[p].flags && Entered(s.tasks[p])
    && (Coroutine in s.tasks[p].flags ==> s.tasks[p].hasStack)
  }

  lemma EndGroups(c: Config, s: State, l: nat, off: nat, p: Ptr)
    requires EndingTask(c, s, l, off, p) && GroupsOk(c, s.tasks, s.groups)
    ensures RemoveTaskGroup(c, s.groups, s.tasks[p], s.lanes[l].laneId).Some?
    ensures
      var s' := EndTask(c, s, l, off, p).0;
      GroupsOk(c, s'.tasks, s'.groups) && s'.fault == s.fault
  {
    var s' := EndTask(c, s, l, off, p).0;
    var t := s.tasks[p];
    forall k: u32 ensures Holders(c, s'.tasks, k) == Holders(c, s.tasks, k) - {p} {
      if FireAndForget in t.flags {
        HoldersAfterDelete(c, s.tasks, p, k);
      } else {
        HoldersAfterUpdate(c, s.tasks, p, s'.tasks[p], k);
      }
    }
    if Locking(c, t) {
      assert Holding(c, t, s.lanes[l].laneId);
      GroupsAfterRelease(c, s.tasks, s.groups, p, s'.tasks, s.lanes[l].laneId);
    } else {
      forall k: u32 ensures GroupOk(c, s'.tasks, s'.groups, k) {
        assert GroupOk(c, s.tasks, s.groups, k);
        assert Holders(c, s'.tasks, k) == Holders(c, s.tasks, k);
      }
    }
  }

  /** Lanes after closing the slot of `p` and popping it if it is the head. */
  lemma EndLanes(c: Config, s: State, l: nat, off: nat, p: Ptr, s': State)
    requires LanesOk(s) && EndingTask(c, s, l, off, p) && s' == EndTask(c, s, l, off, p).0
    ensures LanesOk(s') && s'.born == s.born
    ensures forall q | q in s.born ::
              InLane(s', q) && KeyOf(s', q) == KeyOf(s, q) && (IsOver(s', q) <==> q == p || IsOver(s, q))
  {
    forall k | 0 <= k < |s'.lanes| ensures LaneOk(s', k) {
      assert LaneOk(s, k);
    }
    forall q | q in s.born
      ensures InLane(s', q) && KeyOf(s', q) == KeyOf(s, q) && (IsOver(s', q) <==> q == p || IsOver(s, q))
    {
      assert InLane(s, q);
    }
  }

  lemma EndTasks(c: Config, s: State, l: nat, off: nat, p: Ptr, s': State)
    requires LanesOk(s) && LiveOk(s) && TasksOk(c, s) && EndingTask(c, s, l, off, p)
    requires s' == EndTask(c, s, l, off, p).0
    ensures LanesOk(s') && LiveOk(s') && TasksOk(c, s')
  {
    EndLanes(c, s, l, off, p, s');
    PublishedOk(c, s.tasks[p], KeyOf(s, p), s.born[p]);
    assert s'.tasks.Keys <= s.tasks.Keys;
    TasksAfterEnd(c, s, p, s');
  }

  lemma TasksAfterEnd(c: Config, s: State, p: Ptr, s': State)
    requires LanesOk(s) && LiveOk(s) && TasksOk(c, s) && LanesOk(s') && s'.born == s.born && p in s.born
    requires s'.tasks.Keys <= s.tasks.Keys
    requires forall q | q in s.tasks && q != p :: q in s'.tasks && s'.tasks[q] == s.tasks[q]
    requires forall q | q in s.born :: KeyOf(s', q) == KeyOf(s, q) && (IsOver(s', q) <==> q == p || IsOver(s, q))
    requires p in s'.tasks ==> Complete in s'.tasks[p].flags && TaskOk(c, s'.tasks[p], KeyOf(s, p), s.born[p])
    ensures LiveOk(s') && TasksOk(c, s')
  {
    CardinalityMonotone(s'.tasks.Keys, s.tasks.Keys);
    forall q | q in s'.tasks ensures Housed(c, s', q) {
      assert q in s.tasks && Housed(c, s, q);
      if q != p { HousedStill(c, s, s', q); }
    }
  }

  lemma PublishedOk(c: Config, t: Task, key: u32, b: Birth)
    requires TaskOk(c, t, key, b) && (Locking(c, t) ==> Entered(t))
    ensures TaskOk(c, t.(flags := t.flags + {ModuleComplete, Complete}, hasStack := false), key, b)
  {}

  lemma EndLog(c: Config, s: State, l: nat, off: nat, p: Ptr, s': State)
    requires LanesOk(s) && LiveOk(s) && LogOk(s) && EndingTask(c, s, l, off, p)
    requires s' == EndTask(c, s, l, off, p).0 && LanesOk(s') && LiveOk(s')
    ensures LogOk(s')
  {
    EndLanes(c, s, l, off, p, s');
    var es := (if Coroutine in s.tasks[p].flags then [Unstacked(p)] else []) + [Ended(p)];
    assert s'.log == s.log + es;
    assert Tally(s, p);
    EndOwnTally(c, s, l, off, p, s');
    LogExtended(s, s', es, p);
  }

  lemma EndOwnTally(c: Config, s: State, l: nat, off: nat, p: Ptr, s': State)
    requires EndingTask(c, s, l, off, p) && Tally(s, p)
    requires s' == EndTask(c, s, l, off, p).0 && InLane(s', p) && IsOver(s', p)
    ensures Tally(s', p)
  {
    var es := (if Coroutine in s.tasks[p].flags then [Unstacked(p)] else []) + [Ended(p)];
    assert s'.log == s.log + es;
  }

  lemma EndInv(c: Config, s: State, l: nat, off: nat, p: Ptr)
    requires Inv(c, s) && EndingTask(c, s, l, off, p)
    ensures Inv(c, EndTask(c, s, l, off, p).0)
  {
    var s' := EndTask(c, s, l, off, p).0;
    EndGroups(c, s, l, off, p);
    EndTasks(c, s, l, off, p, s');
    EndLog(c, s, l, off, p, s');
  }

  // ---------------------------------------------------------------- one iteration

  lemma IterateInv(c: Config, s: State, l: nat, off: nat, eff: Effect)
    requires Inv(c, s) && l < |s.lanes| && s.lanes[l].head + off < |s.lanes[l].slots|
    ensures Inv(c, Iterate(c, s, l, off, eff).0)
  {
    var pos := s.lanes[l].head + off;
    var p := s.lanes[l].slots[pos].p;
    if s.lanes[l].slots[pos].complete {
      PopInv(c, s, l, off);
      IteratePops(c, s, l, off, eff);
    } else {
      UnfinishedIsOpen(c, s, l, pos);
      OpenInv(c, s, l, off, eff, p, Iterate(c, s, l, off, eff));
    }
  }

  lemma IteratePops(c: Config, s: State, l: nat, off: nat, eff: Effect)
    requires l < |s.lanes| && s.lanes[l].head + off < |s.lanes[l].slots|
    requires s.lanes[l].slots[s.lanes[l].head + off].complete
    ensures Iterate(c, s, l, off, eff).0 == s.(lanes := s.lanes[l := PopTask(s.lanes[l], off).0])
  {}

  lemma OpenInv(c: Config, s: State, l: nat, off: nat, eff: Effect, p: Ptr, next: (State, nat))
    requires Inv(c, s) && OpenAt(c, s, l, off, p) && next == Iterate(c, s, l, off, eff)
    ensures Inv(c, next.0)
  {
    var s1 := AdmitTask(c, s, l, p, eff);
    FirstHalfInv(c, s, l, off, eff, p, s1);
    TwoHalves(c, s, l, off, eff, p, s1, next);
    SecondHalfInv(c, s1, l, off, p, next);
  }

  lemma SecondHalfInv(c: Config, s: State, l: nat, off: nat, p: Ptr, next: (State, nat))
    requires Inv(c, s) && p in s.tasks && (ModuleComplete in s.tasks[p].flags ==> EndingTask(c, s, l, off, p))
    requires next == if ModuleComplete in s.tasks[p].flags then EndTask(c, s, l, off, p) else (s, off + 1)
    ensures Inv(c, next.0)
  {
    if ModuleComplete in s.tasks[p].flags {
      EndInv(c, s, l, off, p);
    }
  }

  /** `p` is the open slot under the cursor. */
  ghost predicate OpenAt(c: Config, s: State, l: nat, off: nat, p: Ptr) {
    && OpenTask(c, s, l, p) && s.lanes[l].head + off < |s.lanes[l].slots|
    && s.born[p].pos == s.lanes[l].head + off
  }

  lemma FirstHalfInv(c: Config, s: State, l: nat, off: nat, eff: Effect, p: Ptr, s1: State)
    requires Inv(c, s) && OpenAt(c, s, l, off, p) && s1 == AdmitTask(c, s, l, p, eff)
    ensures Inv(c, s1) && p in s1.tasks
    ensures ModuleComplete in s1.tasks[p].flags ==> EndingTask(c, s1, l, off, p)
  {
    AdmitInv(c, s, l, p, eff);
    AdmittedTaskOk(c, s, l, p, eff);
  }

  /** An iteration over an open slot, in its two halves. */
  lemma TwoHalves(c: Config, s: State, l: nat, off: nat, eff: Effect, p: Ptr, s1: State, next: (State, nat))
    requires OpenAt(c, s, l, off, p)
    requires s1 == AdmitTask(c, s, l, p, eff) && next == Iterate(c, s, l, off, eff)
    ensures s1.lanes == s.lanes && s1.born == s.born && p in s1.tasks && s1.tasks == s.tasks[p := s1.tasks[p]]
    ensures s1.tasks[p].root == s.tasks[p].root && Locking(c, s1.tasks[p]) == Locking(c, s.tasks[p])
    ensures next == if ModuleComplete in s1.tasks[p].flags then EndTask(c, s1, l, off, p) else (s1, off + 1)
  {
    AdmittedTaskOk(c, s, l, p, eff);
  }

  /** Passing over a completed slot. */
  lemma PopInv(c: Config, s: State, l: nat, off: nat)
    requires Inv(c, s) && l < |s.lanes| && s.lanes[l].head + off < |s.lanes[l].slots|
    requires s.lanes[l].slots[s.lanes[l].head + off].complete
    ensures Inv(c, s.(lanes := s.lanes[l := PopTask(s.lanes[l], off).0]))
  {
    var s' := s.(lanes := s.lanes[l := PopTask(s.lanes[l], off).0]);
    PopLanes(s, l, off, s');
    SameSlots(c, s, s');
  }

  lemma PopLanes(s: State, l: nat, off: nat, s': State)
    requires LanesOk(s) && l < |s.lanes| && s.lanes[l].head + off < |s.lanes[l].slots|
    requires s.lanes[l].slots[s.lanes[l].head + off].complete
    requires s' == s.(lanes := s.lanes[l := PopTask(s.lanes[l], off).0])
    ensures LanesOk(s')
    ensures forall q | q in s'.born :: KeyOf(s', q) == KeyOf(s, q) && IsOver(s', q) == IsOver(s, q)
  {
    forall k | 0 <= k < |s'.lanes| ensures LaneOk(s', k) { assert LaneOk(s, k); }
    forall q | q in s'.born ensures InLane(s', q) && KeyOf(s', q) == KeyOf(s, q) && IsOver(s', q) == IsOver(s, q) {
      assert InLane(s, q);
    }
  }

  /** A move of the heads only. */
  lemma SameSlots(c: Config, s: State, s': State)
    requires Inv(c, s) && s' == s.(lanes := s'.lanes) && LanesOk(s')
    requires forall q | q in s'.born :: KeyOf(s', q) == KeyOf(s, q) && IsOver(s', q) == IsOver(s, q)
    ensures Inv(c, s')
  {
    forall q | q in s'.tasks ensures Housed(c, s', q) { HousedStill(c, s, s', q); }
    LogSame(s, s');
  }

  lemma LogSame(s: State, s': State)
    requires LanesOk(s) && LiveOk(s) && LogOk(s) && LanesOk(s') && s' == s.(lanes := s'.lanes)
    requires forall q | q in s'.born :: IsOver(s', q) == IsOver(s, q)
    ensures LiveOk(s') && LogOk(s')
  {
    forall q | q in s'.born && !IsOver(s', q) ensures q in s'.tasks { assert !IsOver(s, q); }
    forall q | q in s'.born ensures Tally(s', q) { assert Tally(s, q); }
  }
}
