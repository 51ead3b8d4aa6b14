/** Start order against emplacement order: exactly which iterations, and so which runs, break it. */
module WorkerOrder {
  import opened HrunTypes
  import opened WorkerModel
  import opened WorkerInvariant
  import opened WorkerSteps
  import opened WorkerRuns
  import opened WorkerTouch

  /** By the history: an ordered local task that was not admitted yet. */
  ghost predicate Waits(s: State, p: Ptr) {
    p in s.born && s.born[p].locking && Admitted(p) !in s.log
  }

  /** At log entry `b`, slot `j` of lane `l` was admitted while the ordered slot `i` ahead of it waited. */
  ghost predicate Skips(s: State, l: nat, i: nat, j: nat, b: nat) {
    && l < |s.lanes| && i < j < |s.lanes[l].slots| && b < |s.log|
    && s.log[b] == Admitted(s.lanes[l].slots[j].p)
    && s.lanes[l].slots[i].p in s.born && s.born[s.lanes[l].slots[i].p].locking
    && Admitted(s.lanes[l].slots[i].p) !in s.log[..b]
  }

  /** No ordered task was admitted while one emplaced earlier in the same lane still waited. */
  ghost predicate StartsInOrder(s: State) {
    forall l: nat, i: nat, j: nat, b: nat :: !Skips(s, l, i, j, b)
  }

  /** `h` holds the group of lane `l` and lies outside the part of the lane still ahead of `cursor`. */
  ghost predicate Blocker(c: Config, s: State, l: nat, cursor: nat, h: Ptr)
    requires l < |s.lanes|
  {
    && h in s.tasks && h in s.born && Holding(c, s.tasks[h], s.lanes[l].laneId)
    && (s.born[h].lane == l ==> s.born[h].pos < cursor)
  }

  /** `h` keeps `w` out of the group of lane `l`, having another root. */
  ghost predicate KeepsOut(c: Config, s: State, l: nat, cursor: nat, h: Ptr, w: Ptr)
    requires l < |s.lanes|
  {
    Blocker(c, s, l, cursor, h) && w in s.born && !s.born[h].task.root.Same(s.born[w].task.root)
  }

  ghost predicate Kept(c: Config, s: State, l: nat, cursor: nat, w: Ptr)
    requires l < |s.lanes|
  {
    exists h :: KeepsOut(c, s, l, cursor, h, w)
  }

  /** A task this pass has left waiting is kept out by someone this pass will not reach any more. */
  ghost predicate Guarded(c: Config, s: State, l: nat, cursor: nat)
    requires l < |s.lanes| && cursor <= |s.lanes[l].slots|
  {
    forall i {:trigger Kept(c, s, l, cursor, s.lanes[l].slots[i].p)}
      | 0 <= i < cursor && Waits(s, s.lanes[l].slots[i].p) :: Kept(c, s, l, cursor, s.lanes[l].slots[i].p)
  }

  /** Where a pass over lane `l` stands between two iterations. */
  ghost predicate AtCursor(c: Config, s: State, l: nat, off: nat) {
    && l < |s.lanes| && HeadBusy(s, l, off)
    && s.lanes[l].head + off <= |s.lanes[l].slots| && Guarded(c, s, l, s.lanes[l].head + off)
    && forall i | 0 <= i < s.lanes[l].head + off :: s.lanes[l].slots[i].p in s.born
  }

  /** In the middle of an orderly pass. */
  ghost predicate Ready(c: Config, s: State, l: nat, off: nat) {
    Inv(c, s) && StartsInOrder(s) && AtCursor(c, s, l, off)
  }

  /**
   * The branch that breaks the order, on the state before the iteration: the slot under the cursor is
   * an ordered local task not entered yet, its group is held under its own root, and an ordered task
   * ahead of it in the lane still waits.
   */
  ghost predicate Overtakes(c: Config, s: State, l: nat, off: nat)
    requires l < |s.lanes| && s.lanes[l].head + off < |s.lanes[l].slots|
  {
    var pos := s.lanes[l].head + off;
    var slot := s.lanes[l].slots[pos];
    && !slot.complete && slot.p in s.tasks
    && Locking(c, s.tasks[slot.p]) && !Entered(s.tasks[slot.p])
    && s.lanes[l].laneId in s.groups && s.groups[s.lanes[l].laneId].root.Same(s.tasks[slot.p].root)
    && exists i :: 0 <= i < pos && Waits(s, s.lanes[l].slots[i].p)
  }

  /** A skip seen later, among what was there already, was a skip then. */
  lemma SkippedBefore(s: State, s': State, l: nat, i: nat, j: nat, b: nat)
    requires Later(s, s') && LanesOk(s) && Skips(s', l, i, j, b) && b < |s.log| && j < |s.lanes[l].slots|
    ensures Skips(s, l, i, j, b)
  {
    assert SlotsKept(s.lanes[l], s'.lanes[l]) && LaneOk(s, l);
    assert s'.log[..b] == s.log[..b] && s'.log[b] == s.log[b];
  }

  // ---------------------------------------------------------------- environment

  lemma EnvStarts(c: Config, s: State, e: EnvStep, s': State)
    requires LanesOk(s) && StartsInOrder(s) && s' == ApplyEnv(c, s, e)
    requires forall i | 0 <= i < |s.log| :: s.log[i].p in s.born
    ensures StartsInOrder(s')
  {
    EnvStepLater(c, s, e, s');
    forall l: nat, i: nat, j: nat, b: nat ensures !Skips(s', l, i, j, b) {
      if Skips(s', l, i, j, b) {
        assert s.log[b].p in s.born;
        assert j < |s.lanes[l].slots|;
        SkippedBefore(s, s', l, i, j, b);
      }
    }
  }

  lemma EnvGuarded(c: Config, s: State, l: nat, cursor: nat, e: EnvStep, s': State)
    requires s' == ApplyEnv(c, s, e)
    requires l < |s.lanes| && cursor <= |s.lanes[l].slots| && Guarded(c, s, l, cursor)
    requires forall i | 0 <= i < cursor :: s.lanes[l].slots[i].p in s.born
    ensures |s'.lanes[l].slots| >= |s.lanes[l].slots| && Guarded(c, s', l, cursor)
    ensures forall i | 0 <= i < cursor :: s'.lanes[l].slots[i].p in s'.born
  {
    assert forall i | 0 <= i < |s.lanes[l].slots| :: s'.lanes[l].slots[i] == s.lanes[l].slots[i];
    forall i | 0 <= i < cursor && Waits(s', s'.lanes[l].slots[i].p)
      ensures Kept(c, s', l, cursor, s'.lanes[l].slots[i].p)
    {
      assert Waits(s, s.lanes[l].slots[i].p);
      assert Kept(c, s, l, cursor, s.lanes[l].slots[i].p);
      var h :| KeepsOut(c, s, l, cursor, h, s.lanes[l].slots[i].p);
      BlockerStays(c, s, l, cursor, e, s', h);
      assert KeepsOut(c, s', l, cursor, h, s'.lanes[l].slots[i].p);
    }
  }

  lemma BlockerStays(c: Config, s: State, l: nat, cursor: nat, e: EnvStep, s': State, h: Ptr)
    requires s' == ApplyEnv(c, s, e) && l < |s.lanes| && Blocker(c, s, l, cursor, h)
    ensures Blocker(c, s', l, cursor, h) && s'.born[h] == s.born[h]
  {}

  lemma EnvKeepsHead(c: Config, s: State, l: nat, off: nat, e: EnvStep, s': State)
    requires l < |s.lanes| && HeadBusy(s, l, off) && s' == ApplyEnv(c, s, e)
    ensures HeadBusy(s', l, off) && s'.lanes[l].head == s.lanes[l].head
  {}

  lemma EnvAtCursor(c: Config, s: State, l: nat, off: nat, e: EnvStep, s': State)
    requires AtCursor(c, s, l, off) && s' == ApplyEnv(c, s, e)
    ensures AtCursor(c, s', l, off)
  {
    EnvKeepsHead(c, s, l, off, e, s');
    EnvGuarded(c, s, l, s.lanes[l].head + off, e, s');
  }

  lemma {:induction false} EnvReady(c: Config, s: State, l: nat, off: nat, env: seq<EnvStep>)
    requires Ready(c, s, l, off)
    ensures Ready(c, ApplyAll(c, s, env), l, off)
    decreases env
  {
    if env != [] {
      var s1 := ApplyEnv(c, s, env[0]);
      EnvStepInv(c, s, env[0]);
      EnvStarts(c, s, env[0], s1);
      EnvAtCursor(c, s, l, off, env[0], s1);
      EnvReady(c, s1, l, off, env[1..]);
    }
  }

  // ---------------------------------------------------------------- one iteration over an open slot

  lemma HolderKey(c: Config, s: State, h: Ptr, k: u32)
    requires LanesOk(s) && TasksOk(c, s) && h in s.tasks && Holding(c, s.tasks[h], k)
    ensures h in s.born && KeyOf(s, h) == k && Unfinished(c, s.tasks[h])
    ensures s.born[h].locking && s.born[h].task.root == s.tasks[h].root
  {
    assert Housed(c, s, h);
  }

  /** Whoever is refused finds a holder of another root. */
  lemma ShutOutBy(c: Config, s: State, l: nat, p: Ptr) returns (h: Ptr)
    requires LanesOk(s) && LiveOk(s) && TasksOk(c, s) && GroupsOk(c, s.tasks, s.groups) && LogOk(s)
    requires OpenTask(c, s, l, p) && Locking(c, s.tasks[p]) && !Entered(s.tasks[p]) && !LetsIn(c, s, l, p)
    ensures h != p && h in s.born && h in s.tasks && Holding(c, s.tasks[h], s.lanes[l].laneId)
    ensures !s.born[h].task.root.Same(s.born[p].task.root) && Admitted(h) in s.log
  {
    var k := s.lanes[l].laneId;
    assert GroupOk(c, s.tasks, s.groups, k) && k in s.groups;
    h :| h in Holders(c, s.tasks, k);
    HolderKey(c, s, h, k);
    assert Tally(s, h);
  }

  /** In an orderly state, what was admitted lies ahead of what waits. */
  lemma AdmittedAhead(s: State, l: nat, pos: nat, h: Ptr)
    requires LanesOk(s) && StartsInOrder(s) && l < |s.lanes| && pos < |s.lanes[l].slots|
    requires Waits(s, s.lanes[l].slots[pos].p) && h in s.born && s.born[h].lane == l && Admitted(h) in s.log
    ensures s.born[h].pos < pos
  {
    assert InLane(s, h);
    var x := s.born[h].pos;
    var b :| 0 <= b < |s.log| && s.log[b] == Admitted(h);
    assert s.lanes[l].slots[x].p == h;
    assert Admitted(s.lanes[l].slots[pos].p) !in s.log[..b];
    assert !Skips(s, l, pos, x, b);
  }

  /** A task just kept out is kept out by a holder that this pass is done with. */
  lemma KeptOutByPassedHolder(c: Config, s: State, l: nat, pos: nat) returns (h: Ptr)
    requires Inv(c, s) && StartsInOrder(s) && l < |s.lanes| && pos < |s.lanes[l].slots|
    requires OpenTask(c, s, l, s.lanes[l].slots[pos].p) && s.born[s.lanes[l].slots[pos].p].pos == pos
    requires Waits(s, s.lanes[l].slots[pos].p) && !LetsIn(c, s, l, s.lanes[l].slots[pos].p)
    ensures h != s.lanes[l].slots[pos].p && KeepsOut(c, s, l, pos, h, s.lanes[l].slots[pos].p)
  {
    var p := s.lanes[l].slots[pos].p;
    assert Tally(s, p);
    h := ShutOutBy(c, s, l, p);
    if s.born[h].lane == l {
      AdmittedAhead(s, l, pos, h);
    }
  }

  /** The slot under the cursor, open, and what an iteration over it does. */
  ghost predicate OpenStep(c: Config, s: State, l: nat, pos: nat, p: Ptr, es: seq<Event>, s': State) {
    && l < |s.lanes| && pos < |s.lanes[l].slots| && p == s.lanes[l].slots[pos].p
    && OpenTask(c, s, l, p) && s.born[p].pos == pos && Touches(c, s, l, p, es, s')
  }

  lemma StillKept(
    c: Config, s: State, l: nat, pos: nat, p: Ptr, es: seq<Event>, s': State, cursor: nat, h: Ptr, w: Ptr)
    requires OpenStep(c, s, l, pos, p, es, s') && cursor == pos + 1
    requires h != p && KeepsOut(c, s, l, pos, h, w)
    ensures Kept(c, s', l, cursor, w)
  {
    assert SameSlotTasks(s.lanes[l], s'.lanes[l]);
    assert s'.tasks[h] == s.tasks[h];
    assert KeepsOut(c, s', l, cursor, h, w);
  }

  lemma GuardedAfter(c: Config, s: State, l: nat, pos: nat, p: Ptr, es: seq<Event>, s': State)
    requires Inv(c, s) && StartsInOrder(s) && OpenStep(c, s, l, pos, p, es, s') && Guarded(c, s, l, pos)
    ensures |s'.lanes[l].slots| == |s.lanes[l].slots| && Guarded(c, s', l, pos + 1)
  {
    assert SameSlotTasks(s.lanes[l], s'.lanes[l]);
    forall i | 0 <= i < pos + 1 && Waits(s', s'.lanes[l].slots[i].p)
      ensures Kept(c, s', l, pos + 1, s'.lanes[l].slots[i].p)
    {
      assert s'.lanes[l].slots[i].p == s.lanes[l].slots[i].p;
      var h := KeptOutBefore(c, s, l, pos, p, es, s', i);
      StillKept(c, s, l, pos, p, es, s', pos + 1, h, s.lanes[l].slots[i].p);
    }
  }

  /** Who kept slot `i` out before an iteration after which it still waits. */
  lemma KeptOutBefore(
    c: Config, s: State, l: nat, pos: nat, p: Ptr, es: seq<Event>, s': State, i: nat) returns (h: Ptr)
    requires Inv(c, s) && StartsInOrder(s) && OpenStep(c, s, l, pos, p, es, s') && Guarded(c, s, l, pos)
    requires i <= pos && Waits(s', s.lanes[l].slots[i].p)
    ensures h != p && KeepsOut(c, s, l, pos, h, s.lanes[l].slots[i].p)
  {
    var w := s.lanes[l].slots[i].p;
    assert Waits(s, w);
    if i < pos {
      assert Kept(c, s, l, pos, s.lanes[l].slots[i].p);
      h :| KeepsOut(c, s, l, pos, h, w);
    } else {
      assert !LetsIn(c, s, l, p);
      h := KeptOutByPassedHolder(c, s, l, pos);
    }
  }

  lemma StartsAfter(c: Config, s: State, l: nat, pos: nat, p: Ptr, es: seq<Event>, s': State)
    requires LanesOk(s) && StartsInOrder(s) && OpenStep(c, s, l, pos, p, es, s')
    requires LetsIn(c, s, l, p) ==> forall i | 0 <= i < pos :: !Waits(s, s.lanes[l].slots[i].p)
    ensures StartsInOrder(s')
  {
    LayoutLater(s, s');
    forall k: nat, i: nat, j: nat, b: nat ensures !Skips(s', k, i, j, b) {
      if Skips(s', k, i, j, b) {
        assert SameSlotTasks(s.lanes[k], s'.lanes[k]);
        if b < |s.log| {
          SkippedBefore(s, s', k, i, j, b);
        } else {
          SkippedNow(c, s, l, pos, p, es, s', k, i, j, b);
        }
      }
    }
  }

  lemma SkippedNow(
    c: Config, s: State, l: nat, pos: nat, p: Ptr, es: seq<Event>, s': State, k: nat, i: nat, j: nat, b: nat)
    requires LanesOk(s) && OpenStep(c, s, l, pos, p, es, s') && Skips(s', k, i, j, b) && |s.log| <= b
    ensures k == l && j == pos && LetsIn(c, s, l, p) && Waits(s, s.lanes[l].slots[i].p)
  {
    assert LaneOk(s, k) && SameSlotTasks(s.lanes[k], s'.lanes[k]);
    assert s'.log[b] == es[b - |s.log|];
    assert s.lanes[k].slots[j].p == p;
    assert s.log <= s'.log[..b];
  }

  /** Letting `p` in past a waiting slot breaks the order. */
  lemma OvertakingBreaks(c: Config, s: State, l: nat, pos: nat, p: Ptr, es: seq<Event>, s': State, i: nat)
    requires LanesOk(s) && OpenStep(c, s, l, pos, p, es, s') && LetsIn(c, s, l, p)
    requires i < pos && Waits(s, s.lanes[l].slots[i].p)
    ensures !StartsInOrder(s')
  {
    var w := s.lanes[l].slots[i].p;
    assert LaneOk(s, l) && SameSlotTasks(s.lanes[l], s'.lanes[l]);
    assert w != p;
    var x :| 0 <= x < |es| && es[x] == Admitted(p);
    var b := |s.log| + x;
    assert s'.log[b] == es[x] && s'.log[..b] == s.log + es[..x];
    assert Admitted(w) !in es[..x];
    assert Skips(s', l, i, pos, b);
  }

  /** With somebody waiting ahead the group is held, so being let in is re-entering by root. */
  lemma LetInByRoot(c: Config, s: State, l: nat, pos: nat, p: Ptr, i: nat)
    requires GroupsOk(c, s.tasks, s.groups) && l < |s.lanes| && pos < |s.lanes[l].slots| && p in s.tasks
    requires Guarded(c, s, l, pos) && i < pos && Waits(s, s.lanes[l].slots[i].p)
    requires Locking(c, s.tasks[p]) && !Entered(s.tasks[p])
    ensures s.lanes[l].laneId in s.groups
    ensures LetsIn(c, s, l, p) <==> s.groups[s.lanes[l].laneId].root.Same(s.tasks[p].root)
  {
    var k := s.lanes[l].laneId;
    assert Kept(c, s, l, pos, s.lanes[l].slots[i].p);
    var h :| KeepsOut(c, s, l, pos, h, s.lanes[l].slots[i].p);
    assert h in Holders(c, s.tasks, k) && GroupOk(c, s.tasks, s.groups, k);
  }

  lemma OpenSlotExactly(c: Config, s: State, l: nat, off: nat, pos: nat, p: Ptr, es: seq<Event>, s': State)
    requires LanesOk(s) && GroupsOk(c, s.tasks, s.groups) && StartsInOrder(s)
    requires OpenStep(c, s, l, pos, p, es, s') && pos == s.lanes[l].head + off && Guarded(c, s, l, pos)
    requires !s.lanes[l].slots[pos].complete
    ensures StartsInOrder(s') <==> !Overtakes(c, s, l, off)
  {
    if i: nat :| i < pos && Waits(s, s.lanes[l].slots[i].p) {
      if Locking(c, s.tasks[p]) && !Entered(s.tasks[p]) {
        LetInByRoot(c, s, l, pos, p, i);
      }
      if LetsIn(c, s, l, p) {
        OvertakingBreaks(c, s, l, pos, p, es, s', i);
      } else {
        StartsAfter(c, s, l, pos, p, es, s');
      }
    } else {
      StartsAfter(c, s, l, pos, p, es, s');
    }
  }

  // ---------------------------------------------------------------- one iteration

  lemma StartsMoved(s: State, s': State)
    requires LanesOk(s) && StartsInOrder(s) && SameLayout(s, s') && s'.log == s.log
    ensures StartsInOrder(s')
  {
    LayoutLater(s, s');
    forall l: nat, i: nat, j: nat, b: nat ensures !Skips(s', l, i, j, b) {
      if Skips(s', l, i, j, b) {
        assert SameSlotTasks(s.lanes[l], s'.lanes[l]);
        SkippedBefore(s, s', l, i, j, b);
      }
    }
  }

  lemma GuardedMoved(c: Config, s: State, l: nat, pos: nat, s': State)
    requires LanesOk(s) && LiveOk(s) && LogOk(s) && l < |s.lanes| && pos < |s.lanes[l].slots|
    requires s.lanes[l].slots[pos].complete && Guarded(c, s, l, pos)
    requires SameLayout(s, s') && s'.tasks == s.tasks && s'.log == s.log
    ensures |s'.lanes[l].slots| == |s.lanes[l].slots| && Guarded(c, s', l, pos + 1)
  {
    assert SameSlotTasks(s.lanes[l], s'.lanes[l]);
    assert LaneOk(s, l);
    assert Tally(s, s.lanes[l].slots[pos].p);
    forall i | 0 <= i < pos + 1 && Waits(s', s'.lanes[l].slots[i].p)
      ensures Kept(c, s', l, pos + 1, s'.lanes[l].slots[i].p)
    {
      assert i < pos && Waits(s, s.lanes[l].slots[i].p);
      assert Kept(c, s, l, pos, s.lanes[l].slots[i].p);
      var h :| KeepsOut(c, s, l, pos, h, s.lanes[l].slots[i].p);
      assert KeepsOut(c, s', l, pos + 1, h, s'.lanes[l].slots[i].p);
    }
  }

  lemma ClosedSlotKeeps(c: Config, s: State, l: nat, off: nat, eff: Effect, s': State)
    requires LanesOk(s) && LiveOk(s) && LogOk(s) && StartsInOrder(s) && l < |s.lanes|
    requires s.lanes[l].head + off < |s.lanes[l].slots| && Guarded(c, s, l, s.lanes[l].head + off)
    requires s.lanes[l].slots[s.lanes[l].head + off].complete && s' == Iterate(c, s, l, off, eff).0
    ensures StartsInOrder(s')
    ensures |s'.lanes[l].slots| == |s.lanes[l].slots| && Guarded(c, s', l, s.lanes[l].head + off + 1)
  {
    PassedOver(c, s, l, off, eff, s');
    StartsMoved(s, s');
    GuardedMoved(c, s, l, s.lanes[l].head + off, s');
  }

  /**
   * In the middle of any orderly pass, the next iteration keeps start order equal to emplacement order
   * if and only if it does not take the re-entry branch past a waiting task.
   */
  lemma IterationKeepsOrderExactly(c: Config, s: State, l: nat, off: nat, eff: Effect, s': State)
    requires Ready(c, s, l, off) && s.lanes[l].head + off < |s.lanes[l].slots|
    requires s' == Iterate(c, s, l, off, eff).0
    ensures StartsInOrder(s') <==> !Overtakes(c, s, l, off)
    ensures |s'.lanes[l].slots| == |s.lanes[l].slots| && Guarded(c, s', l, s.lanes[l].head + off + 1)
  {
    var pos := s.lanes[l].head + off;
    if s.lanes[l].slots[pos].complete {
      ClosedSlotKeeps(c, s, l, off, eff, s');
    } else {
      var p := s.lanes[l].slots[pos].p;
      UnfinishedIsOpen(c, s, l, pos);
      var es := IterateEvents(c, s, l, p, AdmitTask(c, s, l, p, eff).tasks[p]);
      IterateTouches(c, s, l, off, eff, p, s');
      GuardedAfter(c, s, l, pos, p, es, s');
      OpenSlotExactly(c, s, l, off, pos, p, es, s');
    }
  }

  lemma CursorMoves(c: Config, s: State, l: nat, off: nat, eff: Effect, next: (State, nat))
    requires LanesOk(s) && l < |s.lanes| && s.lanes[l].head + off < |s.lanes[l].slots| && HeadBusy(s, l, off)
    requires next == Iterate(c, s, l, off, eff)
    ensures HeadBusy(next.0, l, next.1) && next.0.lanes[l].head + next.1 == s.lanes[l].head + off + 1
    ensures s.lanes[l].head <= next.0.lanes[l].head
  {
    forall k | 0 <= k < |s.lanes| ensures s.lanes[k].head <= |s.lanes[k].slots| { assert LaneOk(s, k); }
    IterateMoves(c, s, l, off, eff);
  }

  lemma IterateReady(c: Config, s: State, l: nat, off: nat, eff: Effect, next: (State, nat))
    requires Ready(c, s, l, off) && s.lanes[l].head + off < |s.lanes[l].slots|
    requires next == Iterate(c, s, l, off, eff) && !Overtakes(c, s, l, off)
    ensures Ready(c, next.0, l, next.1)
  {
    IterateInv(c, s, l, off, eff);
    IterationKeepsOrderExactly(c, s, l, off, eff, next.0);
    CursorMoves(c, s, l, off, eff, next);
    assert LaneOk(next.0, l);
  }

  // ---------------------------------------------------------------- passes and runs

  /** Once broken, the order stays broken. */
  lemma StaysBroken(s: State, s': State)
    requires !StartsInOrder(s) && Later(s, s')
    ensures !StartsInOrder(s')
  {
    var l: nat, i: nat, j: nat, b: nat :| Skips(s, l, i, j, b);
    assert SlotsKept(s.lanes[l], s'.lanes[l]);
    assert s'.log[..b] == s.log[..b] && s'.log[b] == s.log[b];
    assert Skips(s', l, i, j, b);
  }

  /** No iteration of this pass takes the breaking branch. */
  ghost predicate PassClear(c: Config, s: State, l: nat, off: nat, script: seq<Choice>)
    requires l < |s.lanes|
    decreases script
  {
    script == [] ||
    var s0 := ApplyAll(c, s, script[0].env);
    s0.lanes[l].head + off >= |s0.lanes[l].slots| ||
    (&& !Overtakes(c, s0, l, off)
     && var next := Iterate(c, s0, l, off, script[0].eff);
        PassClear(c, next.0, l, next.1, script[1..]))
  }

  ghost predicate RunClear(c: Config, s: State, polls: seq<Poll>)
    decreases polls
  {
    polls == [] ||
    if polls[0].lane >= |s.lanes| then RunClear(c, s, polls[1..])
    else
      && PassClear(c, s, polls[0].lane, 0, polls[0].script)
      && RunClear(c, PassFrom(c, s, polls[0].lane, 0, polls[0].script).s, polls[1..])
  }

  lemma {:induction false} PassKeepsOrderExactly(c: Config, s: State, l: nat, off: nat, script: seq<Choice>)
    requires Ready(c, s, l, off)
    ensures StartsInOrder(PassFrom(c, s, l, off, script).s) <==> PassClear(c, s, l, off, script)
    decreases script
  {
    if script != [] {
      var s0 := ApplyAll(c, s, script[0].env);
      EnvReady(c, s, l, off, script[0].env);
      if s0.lanes[l].head + off < |s0.lanes[l].slots| {
        var next := Iterate(c, s0, l, off, script[0].eff);
        IterateInv(c, s0, l, off, script[0].eff);
        if Overtakes(c, s0, l, off) {
          IterationKeepsOrderExactly(c, s0, l, off, script[0].eff, next.0);
          PassLater(c, next.0, l, next.1, script[1..]);
          StaysBroken(next.0, PassFrom(c, next.0, l, next.1, script[1..]).s);
        } else {
          IterateReady(c, s0, l, off, script[0].eff, next);
          PassKeepsOrderExactly(c, next.0, l, next.1, script[1..]);
        }
      }
    }
  }

  lemma NobodyWaitsBeforeHead(c: Config, s: State, l: nat)
    requires Inv(c, s) && l < |s.lanes|
    ensures AtCursor(c, s, l, 0)
  {
    assert LaneOk(s, l);
    forall i | 0 <= i < s.lanes[l].head ensures !Waits(s, s.lanes[l].slots[i].p) {
      assert Tally(s, s.lanes[l].slots[i].p);
    }
  }

  lemma {:induction false} RunFromExactly(c: Config, s: State, polls: seq<Poll>)
    requires Inv(c, s) && StartsInOrder(s)
    ensures StartsInOrder(Execute(c, s, polls)) <==> RunClear(c, s, polls)
    decreases polls
  {
    if polls == [] {
    } else if polls[0].lane >= |s.lanes| {
      RunFromExactly(c, s, polls[1..]);
    } else {
      var s1 := PassFrom(c, s, polls[0].lane, 0, polls[0].script).s;
      NobodyWaitsBeforeHead(c, s, polls[0].lane);
      PassInv(c, s, polls[0].lane, 0, polls[0].script);
      PassKeepsOrderExactly(c, s, polls[0].lane, 0, polls[0].script);
      if StartsInOrder(s1) {
        RunFromExactly(c, s1, polls[1..]);
      } else {
        RunLater(c, s1, polls[1..]);
        StaysBroken(s1, Execute(c, s1, polls[1..]));
      }
    }
  }

  /**
   * Over whole runs, roots shared or not: the ordered tasks of every lane started in emplacement order
   * if and only if no iteration of the run met the guard of the breaking branch.
   */
  lemma RunKeepsOrderExactly(c: Config, s0: State, polls: seq<Poll>)
    requires Initial(s0)
    ensures StartsInOrder(Execute(c, s0, polls)) <==> RunClear(c, s0, polls)
  {
    InitInv(c, s0);
    RunFromExactly(c, s0, polls);
  }

  // ---------------------------------------------------------------- who gets in

  /**
   * Who gets in, by the history alone: in every reachable state an ordered task that still waits is let
   * in by its next examination if and only if every active task of its group has its root; in
   * particular whenever the group is idle. No admitted and ended task leaves the group locked.
   */
  lemma AdmissionExactly(c: Config, s0: State, polls: seq<Poll>, p: Ptr)
    requires Initial(s0) && Waits(Execute(c, s0, polls), p)
    ensures
      var s := Execute(c, s0, polls);
      && p in s.tasks && s.born[p].lane < |s.lanes|
      && (LetsIn(c, s, s.born[p].lane, p)
          <==> forall h | h in Active(s, KeyOf(s, p)) :: s.born[h].task.root.Same(s.born[p].task.root))
  {
    InitInv(c, s0);
    ReachableInv(c, s0, polls);
    var s := Execute(c, s0, polls);
    assert InLane(s, p) && Tally(s, p);
    ActiveAreHolders(c, s, KeyOf(s, p));
    assert Housed(c, s, p);
    LockedByRoot(c, s, s.born[p].lane, p);
  }

  lemma LockedByRoot(c: Config, s: State, l: nat, p: Ptr)
    requires LanesOk(s) && TasksOk(c, s) && l < |s.lanes| && p in s.tasks && p in s.born && s.born[p].lane == l
    requires Locking(c, s.tasks[p]) && !Entered(s.tasks[p]) && GroupOk(c, s.tasks, s.groups, s.lanes[l].laneId)
    ensures
      LetsIn(c, s, l, p)
      <==> forall h | h in Holders(c, s.tasks, s.lanes[l].laneId) :: s.born[h].task.root.Same(s.born[p].task.root)
  {
    var k := s.lanes[l].laneId;
    assert Housed(c, s, p);
    forall h | h in Holders(c, s.tasks, k) ensures h in s.born && s.born[h].task.root == s.tasks[h].root {
      HolderKey(c, s, h, k);
    }
    assert LetsIn(c, s, l, p) <==> k !in s.groups || s.groups[k].root.Same(s.tasks[p].root);
    if k in s.groups {
      var h :| h in Holders(c, s.tasks, k);
      assert s.groups[k].root.Same(s.tasks[h].root);
    }
  }
}
