/** The inductive invariant of the poll loop and its preservation by every step. */
module WorkerInvariant {
  import opened HrunTypes
  import opened WorkerModel

  /** The worker let this task through: it was started, dispersed or spawned. */
  predicate Entered(t: Task) {
    HasStarted in t.flags || DisableRun in t.flags
  }

  /** Admitted, ordered, local and not yet ended, under group key `k`. */
  predicate Holding(c: Config, t: Task, k: u32) {
    Locking(c, t) && Entered(t) && Complete !in t.flags && t.laneId == k
  }

  ghost function Holders(c: Config, tasks: map<Ptr, Task>, k: u32): set<Ptr> {
    set p | p in tasks && Holding(c, tasks[p], k)
  }

  ghost predicate InLane(s: State, p: Ptr) {
    && p in s.born
    && s.born[p].lane < |s.lanes|
    && s.born[p].pos < |s.lanes[s.born[p].lane].slots|
    && s.lanes[s.born[p].lane].slots[s.born[p].pos].p == p
  }

  ghost predicate IsOver(s: State, p: Ptr)
    requires InLane(s, p)
  {
    s.lanes[s.born[p].lane].slots[s.born[p].pos].complete
  }

  /** Lanes and births describe each other; popped slots are complete. */
  ghost predicate LanesOk(s: State) {
    && (forall p | p in s.born :: InLane(s, p))
    && (forall l | 0 <= l < |s.lanes| :: LaneOk(s, l))
  }

  ghost predicate LaneOk(s: State, l: nat)
    requires l < |s.lanes|
  {
    && s.lanes[l].head <= |s.lanes[l].slots|
    && (forall i | 0 <= i < |s.lanes[l].slots| ::
          && s.lanes[l].slots[i].p in s.born
          && s.born[s.lanes[l].slots[i].p].lane == l
          && s.born[s.lanes[l].slots[i].p].pos == i
          && (i < s.lanes[l].head ==> s.lanes[l].slots[i].complete))
  }

  ghost predicate TaskOk(c: Config, t: Task, key: u32, b: Birth) {
    && b.locking == Locking(c, t) == Locking(c, b.task) && b.task.root == t.root
    && b.away == Remote(c, t) && b.task.domain == t.domain
    && (HasStarted in t.flags && Preemptive in t.flags ==> Coroutine in t.flags)
    && (Locking(c, t) && ModuleComplete in t.flags ==> Entered(t))
    && (Entered(t) ==> t.laneId == key)
    && (Remote(c, t) ==> HasStarted !in t.flags)
    && (Coroutine in t.flags ==> DisableRun !in t.flags)
    && (b.stacked <==> !Remote(c, t) && Coroutine in t.flags)
    && (Complete !in t.flags ==> (t.hasStack <==> b.stacked && HasStarted in t.flags))
  }

  ghost predicate LiveOk(s: State)
    requires LanesOk(s)
  {
    forall p | p in s.born && !IsOver(s, p) :: p in s.tasks
  }

  /** A task is live exactly while its slot is open, or published and not yet reclaimed. */
  ghost predicate Housed(c: Config, s: State, p: Ptr)
    requires LanesOk(s) && p in s.tasks
  {
    && p in s.born
    && (Complete in s.tasks[p].flags <==> IsOver(s, p))
    && TaskOk(c, s.tasks[p], KeyOf(s, p), s.born[p])
  }

  ghost predicate TasksOk(c: Config, s: State)
    requires LanesOk(s)
  {
    |s.tasks| < U32_LIMIT && forall p | p in s.tasks :: Housed(c, s, p)
  }

  /** A task that a step does not touch. */
  lemma HousedStill(c: Config, s: State, s': State, p: Ptr)
    requires LanesOk(s) && LanesOk(s') && p in s.tasks && p in s'.tasks && Housed(c, s, p)
    requires s'.tasks[p] == s.tasks[p] && p in s'.born && s'.born[p] == s.born[p]
    requires KeyOf(s', p) == KeyOf(s, p) && IsOver(s', p) == IsOver(s, p)
    ensures Housed(c, s', p)
  {}

  ghost predicate GroupOk(c: Config, tasks: map<Ptr, Task>, groups: map<u32, GroupNode>, k: u32) {
    && (k in groups <==> Holders(c, tasks, k) != {})
    && (k in groups ==>
          && groups[k].depth == |Holders(c, tasks, k)|
          && forall p | p in Holders(c, tasks, k) :: groups[k].root.Same(tasks[p].root))
  }

  ghost predicate GroupsOk(c: Config, tasks: map<Ptr, Task>, groups: map<u32, GroupNode>) {
    forall k: u32 :: GroupOk(c, tasks, groups, k)
  }

  /** Which events of `p` have happened. */
  ghost predicate Tally(s: State, p: Ptr)
    requires InLane(s, p) && (!IsOver(s, p) ==> p in s.tasks)
  {
    var over := IsOver(s, p);
    && (Ended(p) in s.log <==> over)
    && (Admitted(p) in s.log <==> s.born[p].locking && (over || Entered(s.tasks[p])))
    && (Dispersed(p) in s.log <==> s.born[p].away && (over || Entered(s.tasks[p])))
    && (Stacked(p) in s.log <==> s.born[p].stacked && (over || s.tasks[p].hasStack))
    && (Unstacked(p) in s.log <==> s.born[p].stacked && over)
  }

  predicate Repeats(log: seq<Event>, i: nat, j: nat) {
    i < j < |log| && log[i] == log[j] && !log[i].Touched?
  }

  /** Only touching a task may happen more than once. */
  ghost predicate NoRepeat(log: seq<Event>) {
    forall i: nat, j: nat :: !Repeats(log, i, j)
  }

  predicate FollowsEnd(log: seq<Event>, i: nat, j: nat) {
    i < j < |log| && log[i].Ended? && log[j].p == log[i].p
  }

  ghost predicate NothingAfterEnd(log: seq<Event>) {
    forall i: nat, j: nat :: !FollowsEnd(log, i, j)
  }

  ghost predicate LogOk(s: State)
    requires LanesOk(s) && LiveOk(s)
  {
    && NothingAfterEnd(s.log) && NoRepeat(s.log)
    && (forall i | 0 <= i < |s.log| :: s.log[i].p in s.born)
    && (forall p {:trigger Tally(s, p)} | p in s.born :: Tally(s, p))
  }

  ghost predicate Inv(c: Config, s: State) {
    LanesOk(s) && LiveOk(s) && TasksOk(c, s) && GroupsOk(c, s.tasks, s.groups) && LogOk(s) && !s.fault
  }

  lemma InitInv(c: Config, s: State)
    requires Initial(s)
    ensures Inv(c, s)
  {
    forall k: u32 ensures GroupOk(c, s.tasks, s.groups, k) {
      assert Holders(c, s.tasks, k) == {};
    }
  }

  // ---------------------------------------------------------------- group table

  lemma HoldersAfterUpdate(c: Config, tasks: map<Ptr, Task>, p: Ptr, t: Task, k: u32)
    ensures Holders(c, tasks[p := t], k) == Holders(c, tasks, k) - {p} + (if Holding(c, t, k) then {p} else {})
  {}

  lemma HoldersAfterDelete(c: Config, tasks: map<Ptr, Task>, p: Ptr, k: u32)
    ensures Holders(c, tasks - {p}, k) == Holders(c, tasks, k) - {p}
  {}

  lemma HoldersBounded(c: Config, tasks: map<Ptr, Task>, k: u32)
    ensures |Holders(c, tasks, k)| <= |tasks|
  {
    CardinalityMonotone(Holders(c, tasks, k), tasks.Keys);
  }

  lemma CardinalityMonotone<T>(a: set<T>, b: set<T>)
    requires a <= b
    ensures |a| <= |b|
  {
    assert b == a + (b - a);
  }

  /** A step that leaves who holds what unchanged keeps the table right. */
  lemma GroupsSame(
    c: Config, tasks: map<Ptr, Task>, groups: map<u32, GroupNode>, p: Ptr, t: Task, tasks': map<Ptr, Task>)
    requires GroupsOk(c, tasks, groups) && p in tasks
    requires tasks' == tasks[p := t] && t.root == tasks[p].root
    requires forall k: u32 :: Holding(c, t, k) <==> Holding(c, tasks[p], k)
    ensures GroupsOk(c, tasks', groups)
  {
    forall k: u32 ensures GroupOk(c, tasks', groups, k) {
      HoldersAfterUpdate(c, tasks, p, t, k);
      assert GroupOk(c, tasks, groups, k);
      assert Holders(c, tasks', k) == Holders(c, tasks, k);
    }
  }

  /** CheckTaskGroup letting an ordered task in counts it under its lane's key, and only there. */
  lemma GroupsAfterAdmission(
    c: Config, tasks: map<Ptr, Task>, groups: map<u32, GroupNode>, p: Ptr, t: Task, tasks': map<Ptr, Task>, laneId: u32)
    requires GroupsOk(c, tasks, groups) && p in tasks && |tasks| < U32_LIMIT
    requires Locking(c, tasks[p]) && !Entered(tasks[p])
    requires CheckTaskGroup(c, groups, tasks[p].(laneId := laneId), laneId).0
    requires tasks' == tasks[p := t] && t.root == tasks[p].root && Holding(c, t, laneId)
    ensures GroupsOk(c, tasks', CheckTaskGroup(c, groups, tasks[p].(laneId := laneId), laneId).1)
  {
    var groups' := CheckTaskGroup(c, groups, tasks[p].(laneId := laneId), laneId).1;
    forall k: u32 ensures GroupOk(c, tasks', groups', k) {
      HoldersAfterUpdate(c, tasks, p, t, k);
      assert GroupOk(c, tasks, groups, k);
      assert p !in Holders(c, tasks, k);
      if k == laneId {
        AdmissionAtKey(c, tasks, groups, p, t, tasks', k);
      } else {
        assert Holders(c, tasks', k) == Holders(c, tasks, k);
      }
    }
  }

  lemma AdmissionAtKey(
    c: Config, tasks: map<Ptr, Task>, groups: map<u32, GroupNode>, p: Ptr, t: Task, tasks': map<Ptr, Task>, k: u32)
    requires GroupOk(c, tasks, groups, k) && p in tasks && |tasks| < U32_LIMIT
    requires Locking(c, tasks[p]) && !Entered(tasks[p])
    requires CheckTaskGroup(c, groups, tasks[p].(laneId := k), k).0
    requires tasks' == tasks[p := t] && t.root == tasks[p].root && Holding(c, t, k)
    ensures GroupOk(c, tasks', CheckTaskGroup(c, groups, tasks[p].(laneId := k), k).1, k)
  {
    var before := Holders(c, tasks, k);
    HoldersAfterUpdate(c, tasks, p, t, k);
    assert Holders(c, tasks', k) == before + {p};
    assert |before + {p}| == |before| + 1;
    HoldersBounded(c, tasks', k);
    assert tasks'.Keys == tasks.Keys;
    assert |tasks'| == |tasks'.Keys| == |tasks|;
  }

  /** RemoveTaskGroup of a holder never finds depth 0 and takes exactly that holder out. */
  lemma GroupsAfterRelease(
    c: Config, tasks: map<Ptr, Task>, groups: map<u32, GroupNode>, p: Ptr, tasks': map<Ptr, Task>, laneId: u32)
    requires GroupsOk(c, tasks, groups) && p in tasks && Holding(c, tasks[p], laneId)
    requires forall k: u32 :: Holders(c, tasks', k) == Holders(c, tasks, k) - {p}
    requires forall q | q in tasks' && q != p :: q in tasks && tasks'[q] == tasks[q]
    ensures RemoveTaskGroup(c, groups, tasks[p], laneId).Some?
    ensures GroupsOk(c, tasks', RemoveTaskGroup(c, groups, tasks[p], laneId).value)
  {
    assert p in Holders(c, tasks, laneId);
    assert GroupOk(c, tasks, groups, laneId);
    var groups' := RemoveTaskGroup(c, groups, tasks[p], laneId).value;
    forall k: u32 ensures GroupOk(c, tasks', groups', k) {
      assert GroupOk(c, tasks, groups, k);
      assert Holders(c, tasks', k) == Holders(c, tasks, k) - {p};
      if k == laneId {
        assert |Holders(c, tasks', k)| == |Holders(c, tasks, k)| - 1;
        assert k in groups' ==> Holders(c, tasks', k) != {};
      } else {
        assert p !in Holders(c, tasks, k);
      }
    }
  }
}
