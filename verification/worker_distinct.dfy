/** A condition on arrivals alone that keeps start order: no two unfinished tasks of a group share a root. */
module WorkerDistinct {
  import opened HrunTypes
  import opened WorkerModel
  import opened WorkerInvariant
  import opened WorkerSteps
  import opened WorkerRuns
  import opened WorkerTouch
  import opened WorkerOrder

  /** Two unfinished ordered tasks of one group never share a root. */
  ghost predicate DistinctRoots(c: Config, s: State)
    requires LanesOk(s)
  {
    forall p, q | p in s.tasks && q in s.tasks && p in s.born && q in s.born && p != q ::
      Unfinished(c, s.tasks[p]) && Unfinished(c, s.tasks[q]) && KeyOf(s, p) == KeyOf(s, q) ==>
        !s.tasks[p].root.Same(s.tasks[q].root)
  }

  /** A task after an environment step was there before, or is a newcomer with a new root. */
  lemma EnvTask(c: Config, s: State, e: EnvStep, s': State, q: Ptr)
    requires c.exclusiveRoots && s' == ApplyEnv(c, s, e)
    requires q in s'.tasks && q in s'.born && s'.born[q].lane < |s'.lanes|
    ensures
      || (&& q in s.tasks && s'.tasks[q].root == s.tasks[q].root
          && (Unfinished(c, s'.tasks[q]) ==> Unfinished(c, s.tasks[q]))
          && (q in s.born ==> s.born[q] == s'.born[q] && KeyOf(s', q) == KeyOf(s, q)))
      || (e.Emplace? && q == e.p && q !in s.tasks && RootIsNew(c, s, KeyOf(s', q), s'.tasks[q]))
  {}

  lemma EnvDistinct(c: Config, s: State, e: EnvStep, s': State)
    requires LanesOk(s) && DistinctRoots(c, s) && c.exclusiveRoots && s' == ApplyEnv(c, s, e) && LanesOk(s')
    requires forall p | p in s.tasks :: p in s.born
    ensures DistinctRoots(c, s')
  {
    forall p, q | p in s'.tasks && q in s'.tasks && p in s'.born && q in s'.born && p != q
                  && Unfinished(c, s'.tasks[p]) && Unfinished(c, s'.tasks[q]) && KeyOf(s', p) == KeyOf(s', q)
      ensures !s'.tasks[p].root.Same(s'.tasks[q].root)
    {
      assert InLane(s', p) && InLane(s', q);
      RootsApart(c, s, e, s', p, q);
    }
  }

  lemma RootsApart(c: Config, s: State, e: EnvStep, s': State, p: Ptr, q: Ptr)
    requires LanesOk(s) && DistinctRoots(c, s) && c.exclusiveRoots && s' == ApplyEnv(c, s, e)
    requires forall p | p in s.tasks :: p in s.born
    requires InLane(s', p) && InLane(s', q) && p in s'.tasks && q in s'.tasks && p != q
    requires Unfinished(c, s'.tasks[p]) && Unfinished(c, s'.tasks[q]) && KeyOf(s', p) == KeyOf(s', q)
    ensures !s'.tasks[p].root.Same(s'.tasks[q].root)
  {
    EnvTask(c, s, e, s', p);
    EnvTask(c, s, e, s', q);
  }

  lemma KeysKept(s: State, s': State, q: Ptr)
    requires LanesOk(s) && SameLayout(s, s') && q in s.born
    ensures s'.born[q].lane < |s'.lanes| && KeyOf(s', q) == KeyOf(s, q)
  {
    assert InLane(s, q);
    assert SameSlotTasks(s.lanes[s.born[q].lane], s'.lanes[s.born[q].lane]);
  }

  /** A step that adds no unfinished task and changes no root. */
  lemma DistinctAfter(c: Config, s: State, s': State)
    requires LanesOk(s) && LanesOk(s') && DistinctRoots(c, s) && SameLayout(s, s')
    requires forall q | q in s'.tasks ::
               && q in s.tasks && s'.tasks[q].root == s.tasks[q].root
               && (Unfinished(c, s'.tasks[q]) ==> Unfinished(c, s.tasks[q]))
    ensures DistinctRoots(c, s')
  {
    forall a, b | a in s'.tasks && b in s'.tasks && a in s'.born && b in s'.born && a != b
                  && Unfinished(c, s'.tasks[a]) && Unfinished(c, s'.tasks[b]) && KeyOf(s', a) == KeyOf(s', b)
      ensures !s'.tasks[a].root.Same(s'.tasks[b].root)
    {
      KeysKept(s, s', a);
      KeysKept(s, s', b);
    }
  }

  lemma IterateDistinct(c: Config, s: State, l: nat, off: nat, eff: Effect, s': State)
    requires Inv(c, s) && DistinctRoots(c, s) && l < |s.lanes| && s.lanes[l].head + off < |s.lanes[l].slots|
    requires s' == Iterate(c, s, l, off, eff).0 && LanesOk(s')
    ensures DistinctRoots(c, s')
  {
    var pos := s.lanes[l].head + off;
    if s.lanes[l].slots[pos].complete {
      PassedOver(c, s, l, off, eff, s');
    } else {
      UnfinishedIsOpen(c, s, l, pos);
      IterateTouches(c, s, l, off, eff, s.lanes[l].slots[pos].p, s');
    }
    DistinctAfter(c, s, s');
  }

  /** With distinct roots the breaking branch is never taken: whoever is let in finds nobody waiting ahead. */
  lemma NobodyOvertakes(c: Config, s: State, l: nat, off: nat)
    requires Inv(c, s) && DistinctRoots(c, s) && l < |s.lanes| && s.lanes[l].head + off < |s.lanes[l].slots|
    ensures !Overtakes(c, s, l, off)
  {
    if Overtakes(c, s, l, off) {
      UnfinishedIsOpen(c, s, l, s.lanes[l].head + off);
      var h := SharedRoot(c, s, l, s.lanes[l].slots[s.lanes[l].head + off].p);
    }
  }

  /** Re-entry by root means that another unfinished task of the group has that root. */
  lemma SharedRoot(c: Config, s: State, l: nat, p: Ptr) returns (h: Ptr)
    requires LanesOk(s) && TasksOk(c, s) && GroupsOk(c, s.tasks, s.groups) && OpenTask(c, s, l, p)
    requires Locking(c, s.tasks[p]) && !Entered(s.tasks[p]) && s.lanes[l].laneId in s.groups
    requires s.groups[s.lanes[l].laneId].root.Same(s.tasks[p].root)
    ensures h != p && h in s.tasks && h in s.born && Unfinished(c, s.tasks[h]) && Unfinished(c, s.tasks[p])
    ensures KeyOf(s, h) == KeyOf(s, p) && s.tasks[h].root.Same(s.tasks[p].root)
  {
    var k := s.lanes[l].laneId;
    assert GroupOk(c, s.tasks, s.groups, k);
    h :| h in Holders(c, s.tasks, k);
    HolderKey(c, s, h, k);
  }

  lemma {:induction false} EnvAllDistinct(c: Config, s: State, env: seq<EnvStep>)
    requires Inv(c, s) && DistinctRoots(c, s) && c.exclusiveRoots
    ensures Inv(c, ApplyAll(c, s, env)) && DistinctRoots(c, ApplyAll(c, s, env))
    decreases env
  {
    if env != [] {
      var s1 := ApplyEnv(c, s, env[0]);
      EnvStepInv(c, s, env[0]);
      EnvDistinct(c, s, env[0], s1);
      EnvAllDistinct(c, s1, env[1..]);
    }
  }

  lemma {:induction false} PassDistinct(c: Config, s: State, l: nat, off: nat, script: seq<Choice>)
    requires Inv(c, s) && DistinctRoots(c, s) && c.exclusiveRoots && l < |s.lanes|
    ensures PassClear(c, s, l, off, script)
    ensures
      var s' := PassFrom(c, s, l, off, script).s;
      Inv(c, s') && DistinctRoots(c, s')
    decreases script
  {
    if script != [] {
      var s0 := ApplyAll(c, s, script[0].env);
      EnvAllDistinct(c, s, script[0].env);
      if s0.lanes[l].head + off < |s0.lanes[l].slots| {
        var next := Iterate(c, s0, l, off, script[0].eff);
        NobodyOvertakes(c, s0, l, off);
        IterateInv(c, s0, l, off, script[0].eff);
        IterateDistinct(c, s0, l, off, script[0].eff, next.0);
        PassDistinct(c, next.0, l, next.1, script[1..]);
      }
    }
  }

  lemma {:induction false} RunDistinct(c: Config, s: State, polls: seq<Poll>)
    requires Inv(c, s) && DistinctRoots(c, s) && c.exclusiveRoots
    ensures RunClear(c, s, polls)
    decreases polls
  {
    if polls == [] {
    } else if polls[0].lane >= |s.lanes| {
      RunDistinct(c, s, polls[1..]);
    } else {
      PassDistinct(c, s, polls[0].lane, 0, polls[0].script);
      RunDistinct(c, PassFrom(c, s, polls[0].lane, 0, polls[0].script).s, polls[1..]);
    }
  }

  /**
   * If no two unfinished ordered tasks of a group share a root, the ordered local tasks of a lane are
   * admitted in emplacement order over any number of passes: at the moment the log records the
   * admission of slot j, every ordered slot i < j of that lane is already recorded.
   */
  lemma OrderedTasksStartInOrder(c: Config, s0: State, polls: seq<Poll>)
    requires Initial(s0) && c.exclusiveRoots
    ensures StartsInOrder(Execute(c, s0, polls))
  {
    InitInv(c, s0);
    RunDistinct(c, s0, polls);
    RunKeepsOrderExactly(c, s0, polls);
  }
}
