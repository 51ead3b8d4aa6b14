/** Which tasks go through the group table, and which leave the node, by the fields a task came with. */
module WorkerUnordered {
  import opened HrunTypes
  import opened WorkerModel
  import opened WorkerInvariant
  import opened WorkerSteps
  import opened WorkerRuns
  import opened WorkerTouch

  /**
   * Unordered by its flag, by its module's answer, or as one of the admin methods 3 to 10: everything
   * but creating a state (2) and the constructor and destructor (0, 1), which the switch does not list.
   */
  predicate NamedUnordered(t: Task) {
    || Unordered in t.flags
    || t.group == Module(128)
    || (t.group.Admin? && 3 <= t.group.methodId <= 10)
  }

  /** With other hosts around, the domain names all nodes, a node set, or one node that is not this one. */
  predicate MustLeave(c: Config, d: DomainId) {
    c.numHosts != 1 && (KGlobal in d.flags || KSet in d.flags || (KNode in d.flags && d.id != c.node))
  }

  predicate SameNodeAndCounter(a: UniqueId, b: UniqueId) {
    a.node == b.node && a.unique == b.unique
  }

  // ---------------------------------------------------------------- one check, one release

  /** An unordered task, or one that leaves, is let in whatever the table holds, and never changes it. */
  lemma TableIgnores(c: Config, groups: map<u32, GroupNode>, t: Task, laneId: u32)
    requires NamedUnordered(t) || MustLeave(c, t.domain)
    ensures CheckTaskGroup(c, groups, t, laneId) == (true, groups)
    ensures RemoveTaskGroup(c, groups, t, laneId) == Some(groups)
  {}

  /**
   * Any other task, seen for the first time, enters an idle group alone, joins a group of its own root
   * (same node and counter, whatever the hash), and is kept out of any other; and the release undoes
   * the check.
   */
  lemma TableDecides(c: Config, groups: map<u32, GroupNode>, t: Task, laneId: u32)
    requires !NamedUnordered(t) && !MustLeave(c, t.domain) && HasStarted !in t.flags
    requires laneId in groups ==> 0 < groups[laneId].depth < U32_LIMIT - 1
    ensures
      var (admit, after) := CheckTaskGroup(c, groups, t, laneId);
      && (admit <==> laneId !in groups || SameNodeAndCounter(groups[laneId].root, t.root))
      && (admit ==> RemoveTaskGroup(c, after, t, laneId) == Some(groups))
      && (admit ==> laneId in after && after[laneId].depth == 1 + if laneId in groups then groups[laneId].depth else 0)
      && (!admit ==> after == groups)
      && (forall k | k != laneId :: (k in after <==> k in groups) && (k in groups ==> after[k] == groups[k]))
  {
    var (admit, after) := CheckTaskGroup(c, groups, t, laneId);
    if admit {
      var back := RemoveTaskGroup(c, after, t, laneId);
      assert back.Some? && back.value == groups;
    }
  }

  /** Creating a state turns the task into a constructor call while it holds its group; its release still counts. */
  lemma RewrittenTaskReleases(c: Config, groups: map<u32, GroupNode>, t: Task, done: bool, laneId: u32)
    requires t.group == Admin(2)
    ensures
      var t' := RunBody(t, Effect(done, true));
      && t'.group == Admin(0) && GetGroup(t') == -1 && GetGroup(t) == 0
      && RemoveTaskGroup(c, groups, t', laneId) == RemoveTaskGroup(c, groups, t, laneId)
  {}

  lemma LockingByFields(c: Config, t: Task)
    ensures Locking(c, t) <==> !NamedUnordered(t) && !MustLeave(c, t.domain)
  {}

  // ---------------------------------------------------------------- every examination

  /** An iteration over an open task whose run is enabled, and that the table ignores, lets it in. */
  lemma NeverHeldUp(c: Config, s: State, l: nat, off: nat, eff: Effect, p: Ptr, s': State)
    requires Inv(c, s) && OpenAt(c, s, l, off, p) && DisableRun !in s.tasks[p].flags
    requires NamedUnordered(s.born[p].task) || MustLeave(c, s.born[p].task.domain)
    requires s' == Iterate(c, s, l, off, eff).0
    ensures s'.groups == s.groups
    ensures s'.lanes[l].slots[s.born[p].pos].complete || (p in s'.tasks && Entered(s'.tasks[p]))
  {
    var s1, next := AdmitTask(c, s, l, p, eff), Iterate(c, s, l, off, eff);
    LockingByFields(c, s.born[p].task);
    TwoHalves(c, s, l, off, eff, p, s1, next);
    LetInUnlocked(c, s, l, p, eff, s1);
    if ModuleComplete in s1.tasks[p].flags {
      ReleaseUnlocked(c, s1, l, off, p, next);
    }
  }

  lemma LetInUnlocked(c: Config, s: State, l: nat, p: Ptr, eff: Effect, s1: State)
    requires OpenTask(c, s, l, p) && DisableRun !in s.tasks[p].flags && !Locking(c, s.tasks[p])
    requires s1 == AdmitTask(c, s, l, p, eff)
    ensures s1.groups == s.groups && p in s1.tasks && Entered(s1.tasks[p]) && !Locking(c, s1.tasks[p])
  {
    DispatchOk(c, s.tasks[p].(laneId := s.lanes[l].laneId), s.lanes[l].laneId, s.born[p], eff);
  }

  lemma ReleaseUnlocked(c: Config, s: State, l: nat, off: nat, p: Ptr, next: (State, nat))
    requires l < |s.lanes| && s.lanes[l].head + off < |s.lanes[l].slots| && p in s.tasks && !Locking(c, s.tasks[p])
    requires next == EndTask(c, s, l, off, p)
    ensures next.0.groups == s.groups && next.0.lanes[l].slots[s.lanes[l].head + off].complete
  {}

  // ---------------------------------------------------------------- runs

  /**
   * In every run, by the fields a task came with: an unordered task, and one that leaves, is never
   * recorded as admitted to a group, so it is counted in none.
   */
  lemma UnorderedIsInNoGroup(c: Config, s0: State, polls: seq<Poll>, p: Ptr, k: u32)
    requires Initial(s0) && p in Execute(c, s0, polls).born
    requires
      var t := Execute(c, s0, polls).born[p].task;
      NamedUnordered(t) || MustLeave(c, t.domain)
    ensures
      var s := Execute(c, s0, polls);
      Admitted(p) !in s.log && p !in Active(s, k)
  {
    InitInv(c, s0);
    RunBirths(c, s0, polls);
    ReachableInv(c, s0, polls);
    var s := Execute(c, s0, polls);
    assert InLane(s, p) && Tally(s, p) && BirthOk(c, s, p);
    LockingByFields(c, s.born[p].task);
  }

  /** And the active tasks of a group are exactly the other ones of its lane id that were let in and have not ended. */
  lemma ActiveByFields(c: Config, s0: State, polls: seq<Poll>, p: Ptr)
    requires Initial(s0) && p in Execute(c, s0, polls).born
    ensures
      var s := Execute(c, s0, polls);
      var t := s.born[p].task;
      && s.born[p].lane < |s.lanes|
      && (p in Active(s, KeyOf(s, p))
          <==> !NamedUnordered(t) && !MustLeave(c, t.domain) && p in s.tasks && Complete !in s.tasks[p].flags
               && (HasStarted in s.tasks[p].flags || DisableRun in s.tasks[p].flags))
  {
    InitInv(c, s0);
    RunBirths(c, s0, polls);
    ReachableInv(c, s0, polls);
    var s := Execute(c, s0, polls);
    assert InLane(s, p) && Tally(s, p) && BirthOk(c, s, p);
    assert p in s.tasks ==> Housed(c, s, p);
    LockingByFields(c, s.born[p].task);
  }

  /**
   * In every run, by its domain bits: a task that must leave this node is dispersed, once, by the time
   * it ends, and never started, given a stack or admitted here; any other task is never dispersed.
   */
  lemma DomainDecides(c: Config, s0: State, polls: seq<Poll>, p: Ptr)
    requires Initial(s0) && p in Execute(c, s0, polls).born
    ensures
      var s := Execute(c, s0, polls);
      var away := MustLeave(c, s.born[p].task.domain);
      && NoRepeat(s.log)
      && (Dispersed(p) in s.log ==> away)
      && (away ==> Admitted(p) !in s.log && Stacked(p) !in s.log && (p in s.tasks ==> HasStarted !in s.tasks[p].flags))
      && (away && Ended(p) in s.log ==> Dispersed(p) in s.log)
      && (away && Ended(p) !in s.log ==>
            p in s.tasks && (Dispersed(p) in s.log <==> DisableRun in s.tasks[p].flags))
  {
    InitInv(c, s0);
    RunBirths(c, s0, polls);
    ReachableInv(c, s0, polls);
    var s := Execute(c, s0, polls);
    assert InLane(s, p) && Tally(s, p) && BirthOk(c, s, p);
    assert p in s.tasks ==> Housed(c, s, p);
    LockingByFields(c, s.born[p].task);
  }

  /** What was recorded of a task at its birth agrees with the task itself. */
  ghost predicate BirthOk(c: Config, s: State, p: Ptr) {
    p in s.born ==> s.born[p] == BirthOf(c, s.born[p].lane, s.born[p].pos, s.born[p].task)
  }

  ghost predicate BirthsOk(c: Config, s: State) {
    forall p: Ptr :: BirthOk(c, s, p)
  }

  lemma {:induction false} EnvBirths(c: Config, s: State, env: seq<EnvStep>)
    requires BirthsOk(c, s)
    ensures BirthsOk(c, ApplyAll(c, s, env))
    decreases env
  {
    if env != [] {
      var s1 := ApplyEnv(c, s, env[0]);
      forall p: Ptr ensures BirthOk(c, s1, p) { assert BirthOk(c, s, p); }
      EnvBirths(c, s1, env[1..]);
    }
  }

  lemma {:induction false} PassBirths(c: Config, s: State, l: nat, off: nat, script: seq<Choice>)
    requires BirthsOk(c, s) && l < |s.lanes|
    ensures BirthsOk(c, PassFrom(c, s, l, off, script).s)
    decreases script
  {
    if script != [] {
      var s0 := ApplyAll(c, s, script[0].env);
      EnvBirths(c, s, script[0].env);
      if s0.lanes[l].head + off < |s0.lanes[l].slots| {
        var next := Iterate(c, s0, l, off, script[0].eff);
        BornKept(c, s0, l, off, script[0].eff);
        forall p: Ptr ensures BirthOk(c, next.0, p) { assert BirthOk(c, s0, p); }
        PassBirths(c, next.0, l, next.1, script[1..]);
      }
    }
  }

  lemma {:induction false} RunBirths(c: Config, s: State, polls: seq<Poll>)
    requires Initial(s) || BirthsOk(c, s)
    ensures BirthsOk(c, Execute(c, s, polls))
    decreases polls
  {
    assert BirthsOk(c, s);
    if polls == [] {
    } else if polls[0].lane >= |s.lanes| {
      RunBirths(c, s, polls[1..]);
    } else {
      PassBirths(c, s, polls[0].lane, 0, polls[0].script);
      RunBirths(c, PassFrom(c, s, polls[0].lane, 0, polls[0].script).s, polls[1..]);
    }
  }
}
