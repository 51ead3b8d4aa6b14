/** The worker's poll loop as step functions over its lanes, tasks and group table. */
module WorkerModel {
  import opened HrunTypes

  type Ptr = nat

  const TASK_UNORDERED := 128
  const METHOD_CONSTRUCT := 0
  const METHOD_CREATE_TASK_STATE := 2
  const METHOD_LAST_ADMIN := 10

  /** Where a task's `GetGroup` code comes from: the admin switch, or a module's fixed answer. */
  datatype GroupSource = Admin(methodId: u32) | Module(ret: int)

  datatype Task = Task(
    root: UniqueId,
    domain: DomainId,
    group: GroupSource,
    flags: set<Flag>,
    laneId: u32,
    hasStack: bool)

  /** One cell of a lane. */
  datatype Slot = Slot(p: Ptr, complete: bool)

  /** A FIFO lane: `slots` is everything ever emplaced, `head` counts the pops. */
  datatype Lane = Lane(laneId: u32, slots: seq<Slot>, head: nat)

  datatype GroupNode = GroupNode(root: UniqueId, depth: u32)

  /** History: what was true of a task when it was emplaced. */
  datatype Birth = Birth(lane: nat, pos: nat, locking: bool, stacked: bool, away: bool, task: Task)

  /** History: the worker's accesses to a task, in order. */
  datatype Event =
    | Touched(p: Ptr)
    | Admitted(p: Ptr)
    | Dispersed(p: Ptr)
    | Stacked(p: Ptr)
    | Unstacked(p: Ptr)
    | Ended(p: Ptr)

  /** `exclusiveRoots` restricts the environment: see `ApplyEnv`. */
  datatype Config = Config(numHosts: nat, node: u32, exclusiveRoots: bool)

  /** `born`, `log` and `reclaimed`, the tasks their owners deleted, are history. */
  datatype State = State(
    lanes: seq<Lane>,
    tasks: map<Ptr, Task>,
    groups: map<u32, GroupNode>,
    born: map<Ptr, Birth>,
    log: seq<Event>,
    reclaimed: set<Ptr>,
    fault: bool)

  // ---------------------------------------------------------------- group table

  predicate Remote(c: Config, t: Task) {
    t.domain.IsRemote(c.numHosts, c.node)
  }

  /** The admin library answers -1 for a method its switch does not list. */
  function GetGroup(t: Task): int {
    match t.group
    case Module(ret) => ret
    case Admin(m) =>
      if m == METHOD_CREATE_TASK_STATE then 0
      else if METHOD_CREATE_TASK_STATE < m <= METHOD_LAST_ADMIN then TASK_UNORDERED
      else -1
  }

  predicate Ordered(t: Task) {
    GetGroup(t) != TASK_UNORDERED && Unordered !in t.flags
  }

  /** The tasks that go through the group table. */
  predicate Locking(c: Config, t: Task) {
    !Remote(c, t) && Ordered(t)
  }

  function CheckTaskGroup(c: Config, groups: map<u32, GroupNode>, t: Task, laneId: u32)
    : (r: (bool, map<u32, GroupNode>))
  {
    if Remote(c, t) || HasStarted in t.flags then
      (true, groups)
    else if !Ordered(t) then
      (true, groups)
    else if laneId !in groups then
      (true, groups[laneId := GroupNode(t.root, 1)])
    else if groups[laneId].root.Same(t.root) then
      (true, groups[laneId := groups[laneId].(depth := (groups[laneId].depth + 1) % U32_LIMIT)])
    else
      (false, groups)
  }

  /** None is the fatal "depth is already 0". */
  function RemoveTaskGroup(c: Config, groups: map<u32, GroupNode>, t: Task, laneId: u32)
    : (r: Option<map<u32, GroupNode>>)
  {
    if Remote(c, t) || !Ordered(t) then
      Some(groups)
    else if laneId !in groups || groups[laneId].depth == 0 then
      None
    else if groups[laneId].depth == 1 then
      Some(groups - {laneId})
    else
      Some(groups[laneId := groups[laneId].(depth := groups[laneId].depth - 1)])
  }

  // ---------------------------------------------------------------- one iteration

  /** What the module code does when the worker runs a task: code the worker cannot see. */
  datatype Effect = Effect(done: bool, rewriteMethod: bool)

  /** A module that returns without finishing, and one that finishes. */
  const STAY := Effect(false, false)
  const DONE := Effect(true, false)

  function RunBody(t: Task, eff: Effect): Task {
    var t1 := if eff.done then t.(flags := t.flags + {ModuleComplete}) else t;
    if eff.rewriteMethod && t1.group == Admin(METHOD_CREATE_TASK_STATE) then
      t1.(group := Admin(METHOD_CONSTRUCT))
    else
      t1
  }

  function Dispatch(c: Config, t: Task, eff: Effect): Task {
    if Remote(c, t) then
      // SetUnordered only reads its bit, so it leaves no trace here
      t.(flags := t.flags + {DisableRun} - {Coroutine})
    else if Coroutine in t.flags then
      RunBody(t.(flags := t.flags + {HasStarted}, hasStack := true), eff)
    else if Preemptive in t.flags then
      t.(flags := t.flags + {DisableRun})
    else
      RunBody(t.(flags := t.flags + {HasStarted}), eff)
  }

  /** Dispatching this task makes a stack. */
  predicate MakesStack(c: Config, t: Task) {
    !Remote(c, t) && Coroutine in t.flags && HasStarted !in t.flags
  }

  function PopTask(lane: Lane, off: nat): (Lane, nat) {
    if off == 0 then (lane.(head := lane.head + 1), 0) else (lane, off + 1)
  }

  /** First half of an iteration: stamp the lane, try to admit, dispatch. */
  function AdmitTask(c: Config, s: State, l: nat, p: Ptr, eff: Effect): State
    requires l < |s.lanes| && p in s.tasks
  {
    var laneId := s.lanes[l].laneId;
    var t := s.tasks[p].(laneId := laneId);
    if DisableRun in t.flags then
      s.(tasks := s.tasks[p := t], log := s.log + [Touched(p)])
    else
      var (admit, groups) := CheckTaskGroup(c, s.groups, t, laneId);
      if !admit then
        s.(tasks := s.tasks[p := t], log := s.log + [Touched(p)])
      else
        s.(tasks := s.tasks[p := Dispatch(c, t, eff)],
           groups := groups,
           log := s.log + [Touched(p)]
                  + (if Locking(c, t) && HasStarted !in t.flags then [Admitted(p)] else [])
                  + (if MakesStack(c, t) then [Stacked(p)] else [])
                  + (if Remote(c, t) then [Dispersed(p)] else []))
  }

  /** Second half, for a task found module-complete: release, pop, delete or publish. */
  function EndTask(c: Config, s: State, l: nat, off: nat, p: Ptr): (State, nat)
    requires l < |s.lanes| && s.lanes[l].head + off < |s.lanes[l].slots| && p in s.tasks
  {
    var lane := s.lanes[l];
    var pos := lane.head + off;
    var t := s.tasks[p];
    var freesStack := Coroutine in t.flags;
    var badFree := freesStack && !t.hasStack;
    var removed := RemoveTaskGroup(c, s.groups, t, lane.laneId);
    var (lane', off') := PopTask(lane.(slots := lane.slots[pos := lane.slots[pos].(complete := true)]), off);
    (s.(lanes := s.lanes[l := lane'],
        groups := if removed.Some? then removed.value else s.groups,
        tasks := if FireAndForget in t.flags then s.tasks - {p}
                 else s.tasks[p := t.(flags := t.flags + {ModuleComplete, Complete}, hasStack := false)],
        log := s.log + (if freesStack then [Unstacked(p)] else []) + [Ended(p)],
        fault := s.fault || badFree || removed.None?),
     off')
  }

  /** One iteration of the poll loop on the slot `off` places behind the head. */
  function Iterate(c: Config, s: State, l: nat, off: nat, eff: Effect): (r: (State, nat))
    requires l < |s.lanes| && s.lanes[l].head + off < |s.lanes[l].slots|
    ensures |r.0.lanes| == |s.lanes|
  {
    var slot := s.lanes[l].slots[s.lanes[l].head + off];
    if slot.complete then
      var (lane', off') := PopTask(s.lanes[l], off);
      (s.(lanes := s.lanes[l := lane']), off')
    else if slot.p !in s.tasks then
      // a pointer to freed memory is dereferenced
      (s.(fault := true), off + 1)
    else
      var s1 := AdmitTask(c, s, l, slot.p, eff);
      if ModuleComplete in s1.tasks[slot.p].flags then
        EndTask(c, s1, l, off, slot.p)
      else
        (s1, off + 1)
  }

  // ---------------------------------------------------------------- the rest of the system

  /** What other threads may do between two iterations. */
  datatype EnvStep =
    | Emplace(lane: nat, task: Task, p: Ptr)
    | Finish(p: Ptr)
    | Reclaim(p: Ptr)

  predicate Fresh(t: Task) {
    t.flags !! PROGRESS_FLAGS && !t.hasStack
  }

  /** The lane id under which a task competes for its group. */
  function KeyOf(s: State, p: Ptr): u32
    requires p in s.born && s.born[p].lane < |s.lanes|
  {
    s.lanes[s.born[p].lane].laneId
  }

  function BirthOf(c: Config, l: nat, pos: nat, t: Task): Birth {
    Birth(l, pos, Locking(c, t), !Remote(c, t) && Coroutine in t.flags, Remote(c, t), t)
  }

  /** No unfinished ordered task of the same group has the root of `t`. */
  predicate RootIsNew(c: Config, s: State, laneId: u32, t: Task) {
    Locking(c, t) ==>
      forall q | q in s.tasks && q in s.born && s.born[q].lane < |s.lanes| ::
        Locking(c, s.tasks[q]) && Complete !in s.tasks[q].flags && KeyOf(s, q) == laneId ==>
          !s.tasks[q].root.Same(t.root)
  }

  /**
   * Emplace: a task seen for the first time enters a lane; fewer than 2^32 tasks exist at once.
   * Finish: someone marks a task module-complete; an ordered local task is marked only by its own
   *   run, so from outside only through the thread of a preemptive task.
   * Reclaim: the owner deletes a task that was published as complete.
   */
  function ApplyEnv(c: Config, s: State, e: EnvStep): (s': State)
    ensures |s'.lanes| == |s.lanes|
  {
    match e
    case Emplace(l, t, p) =>
      if l < |s.lanes| && p !in s.born && p !in s.tasks && Fresh(t) && |s.tasks| + 1 < U32_LIMIT
         && (c.exclusiveRoots ==> RootIsNew(c, s, s.lanes[l].laneId, t))
      then
        var lane := s.lanes[l];
        s.(lanes := s.lanes[l := lane.(slots := lane.slots + [Slot(p, false)])],
           tasks := s.tasks[p := t],
           born := s.born[p := BirthOf(c, l, |lane.slots|, t)])
      else s
    case Finish(p) =>
      if p in s.tasks && Complete !in s.tasks[p].flags
         && (Locking(c, s.tasks[p]) ==> DisableRun in s.tasks[p].flags)
      then s.(tasks := s.tasks[p := s.tasks[p].(flags := s.tasks[p].flags + {ModuleComplete})])
      else s
    case Reclaim(p) =>
      if p in s.tasks && Complete in s.tasks[p].flags
      then s.(tasks := s.tasks - {p}, reclaimed := s.reclaimed + {p})
      else s
  }

  function ApplyAll(c: Config, s: State, env: seq<EnvStep>): (s': State)
    ensures |s'.lanes| == |s.lanes|
    decreases env
  {
    if env == [] then s else ApplyAll(c, ApplyEnv(c, s, env[0]), env[1..])
  }

  // ---------------------------------------------------------------- passes and runs

  /** What surrounds one iteration: interference before it, and the module's reaction in it. */
  datatype Choice = Choice(env: seq<EnvStep>, eff: Effect)

  datatype PassResult = PassResult(s: State, off: nat, visited: seq<nat>)

  /** The poll loop from offset `off` on; the length of the script bounds the iterations. */
  function PassFrom(c: Config, s: State, l: nat, off: nat, script: seq<Choice>): (r: PassResult)
    requires l < |s.lanes|
    ensures |r.s.lanes| == |s.lanes|
    decreases script
  {
    if script == [] then
      PassResult(s, off, [])
    else
      var s0 := ApplyAll(c, s, script[0].env);
      var pos := s0.lanes[l].head + off;
      if pos >= |s0.lanes[l].slots| then
        PassResult(s0, off, [])
      else
        var (s1, off1) := Iterate(c, s0, l, off, script[0].eff);
        var rest := PassFrom(c, s1, l, off1, script[1..]);
        PassResult(rest.s, rest.off, [pos] + rest.visited)
  }

  /** One call of PollGrouped on lane `lane`. */
  datatype Poll = Poll(lane: nat, script: seq<Choice>)

  /** The bound of the poll loop. The theorems that do not depend on it hold for scripts of any length. */
  const MAX_ITERATIONS: nat := 1024

  predicate Bounded(polls: seq<Poll>) {
    forall k | 0 <= k < |polls| :: |polls[k].script| <= MAX_ITERATIONS
  }

  function Execute(c: Config, s: State, polls: seq<Poll>): (s': State)
    ensures |s'.lanes| == |s.lanes|
    decreases polls
  {
    if polls == [] then s
    else if polls[0].lane >= |s.lanes| then Execute(c, s, polls[1..])
    else Execute(c, PassFrom(c, s, polls[0].lane, 0, polls[0].script).s, polls[1..])
  }

  predicate Initial(s: State) {
    && (forall l | 0 <= l < |s.lanes| :: s.lanes[l].slots == [] && s.lanes[l].head == 0)
    && s.tasks == map[] && s.groups == map[] && s.born == map[] && s.log == [] && s.reclaimed == {} && !s.fault
  }
}
