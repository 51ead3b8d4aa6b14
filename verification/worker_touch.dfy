/** What one iteration of the poll loop leaves alone: other tasks, the layout of the lanes, the past. */
module WorkerTouch {
  import opened HrunTypes
  import opened WorkerModel
  import opened WorkerInvariant
  import opened WorkerSteps
  import opened WorkerRuns

  /** The worker lets an ordered task in for the first time. */
  predicate LetsIn(c: Config, s: State, l: nat, p: Ptr)
    requires l < |s.lanes| && p in s.tasks
  {
    && Locking(c, s.tasks[p]) && !Entered(s.tasks[p])
    && CheckTaskGroup(c, s.groups, s.tasks[p].(laneId := s.lanes[l].laneId), s.lanes[l].laneId).0
  }

  ghost predicate SameSlotTasks(a: Lane, b: Lane) {
    && b.laneId == a.laneId && |b.slots| == |a.slots|
    && forall i | 0 <= i < |a.slots| :: b.slots[i].p == a.slots[i].p
  }

  ghost predicate SameLayout(s: State, s': State) {
    && s'.born == s.born && |s'.lanes| == |s.lanes|
    && forall k | 0 <= k < |s.lanes| :: SameSlotTasks(s.lanes[k], s'.lanes[k])
  }

  ghost predicate OthersKept(s: State, p: Ptr, s': State) {
    forall q | q != p :: (q in s'.tasks <==> q in s.tasks) && (q in s.tasks ==> s'.tasks[q] == s.tasks[q])
  }

  /** An ordered task that has not ended. */
  predicate Unfinished(c: Config, t: Task) {
    Locking(c, t) && Complete !in t.flags
  }

  /** What an iteration over the unfinished task `p` leaves of everything else. */
  ghost predicate Touches(c: Config, s: State, l: nat, p: Ptr, es: seq<Event>, s': State)
    requires l < |s.lanes| && p in s.tasks
  {
    && SameLayout(s, s') && OthersKept(s, p, s')
    && (p in s'.tasks ==> s'.tasks[p].root == s.tasks[p].root)
    && (p in s'.tasks && Unfinished(c, s'.tasks[p]) ==> Unfinished(c, s.tasks[p]))
    && s'.log == s.log + es
    && (forall i | 0 <= i < |es| :: es[i].p == p)
    && (Admitted(p) in es <==> LetsIn(c, s, l, p))
  }

  function EndEvents(p: Ptr, t: Task): seq<Event> {
    if ModuleComplete in t.flags then (if Coroutine in t.flags then [Unstacked(p)] else []) + [Ended(p)] else []
  }

  /** Every event of an iteration over `p`, given the task as admission left it. */
  function IterateEvents(c: Config, s: State, l: nat, p: Ptr, t: Task): seq<Event>
    requires l < |s.lanes| && p in s.tasks
  {
    AdmitEvents(c, s, l, p) + EndEvents(p, t)
  }

  lemma LayoutKept(c: Config, s: State, l: nat, off: nat, eff: Effect, s': State)
    requires l < |s.lanes| && s.lanes[l].head + off < |s.lanes[l].slots|
    requires s' == Iterate(c, s, l, off, eff).0
    ensures SameLayout(s, s')
  {
    IterateLane(c, s, l, off, eff);
    BornKept(c, s, l, off, eff);
    forall k | 0 <= k < |s.lanes| ensures SameSlotTasks(s.lanes[k], s'.lanes[k]) {
      assert k != l ==> s'.lanes[k] == s.lanes[k];
    }
  }

  lemma BornKept(c: Config, s: State, l: nat, off: nat, eff: Effect)
    requires l < |s.lanes| && s.lanes[l].head + off < |s.lanes[l].slots|
    ensures Iterate(c, s, l, off, eff).0.born == s.born
  {}

  lemma EndEffect(c: Config, s: State, l: nat, off: nat, p: Ptr, s': State)
    requires l < |s.lanes| && s.lanes[l].head + off < |s.lanes[l].slots| && p in s.tasks
    requires ModuleComplete in s.tasks[p].flags && s' == EndTask(c, s, l, off, p).0
    ensures s'.log == s.log + EndEvents(p, s.tasks[p]) && OthersKept(s, p, s')
    ensures p in s'.tasks ==> s'.tasks[p].root == s.tasks[p].root && Complete in s'.tasks[p].flags
  {
    assert s'.log == s.log + EndEvents(p, s.tasks[p]);
  }

  lemma AdmitEffect(c: Config, s: State, l: nat, p: Ptr, eff: Effect, s1: State)
    requires l < |s.lanes| && p in s.tasks && s1 == AdmitTask(c, s, l, p, eff)
    ensures s1.log == s.log + AdmitEvents(c, s, l, p)
    ensures forall i | 0 <= i < |AdmitEvents(c, s, l, p)| :: AdmitEvents(c, s, l, p)[i].p == p
    ensures Admitted(p) in AdmitEvents(c, s, l, p) <==> LetsIn(c, s, l, p)
  {
    assert s1.log == s.log + AdmitEvents(c, s, l, p);
  }

  lemma IterateTouches(c: Config, s: State, l: nat, off: nat, eff: Effect, p: Ptr, s': State)
    requires OpenAt(c, s, l, off, p) && s' == Iterate(c, s, l, off, eff).0
    ensures Touches(c, s, l, p, IterateEvents(c, s, l, p, AdmitTask(c, s, l, p, eff).tasks[p]), s')
  {
    var s1 := AdmitTask(c, s, l, p, eff);
    var next := Iterate(c, s, l, off, eff);
    var es := IterateEvents(c, s, l, p, s1.tasks[p]);
    LayoutKept(c, s, l, off, eff, s');
    TwoHalves(c, s, l, off, eff, p, s1, next);
    AdmitEffect(c, s, l, p, eff, s1);
    if ModuleComplete in s1.tasks[p].flags {
      EndEffect(c, s1, l, off, p, s');
    }
    Joined(s.log, s1.log, s'.log, AdmitEvents(c, s, l, p), EndEvents(p, s1.tasks[p]), p);
  }

  lemma Joined(a: seq<Event>, b: seq<Event>, d: seq<Event>, xs: seq<Event>, ys: seq<Event>, p: Ptr)
    requires b == a + xs && d == b + ys && Admitted(p) !in ys
    requires forall i | 0 <= i < |xs| :: xs[i].p == p
    requires forall i | 0 <= i < |ys| :: ys[i].p == p
    ensures d == a + (xs + ys) && (Admitted(p) in xs + ys <==> Admitted(p) in xs)
    ensures forall i | 0 <= i < |xs + ys| :: (xs + ys)[i].p == p
  {}

  /** Passing over a closed slot moves the head at most. */
  lemma PassedOver(c: Config, s: State, l: nat, off: nat, eff: Effect, s': State)
    requires l < |s.lanes| && s.lanes[l].head + off < |s.lanes[l].slots|
    requires s.lanes[l].slots[s.lanes[l].head + off].complete && s' == Iterate(c, s, l, off, eff).0
    ensures SameLayout(s, s') && s'.tasks == s.tasks && s'.log == s.log && s'.groups == s.groups
  {
    LayoutKept(c, s, l, off, eff, s');
  }

  // ---------------------------------------------------------------- the history only grows

  ghost predicate SlotsKept(a: Lane, b: Lane) {
    && b.laneId == a.laneId && |a.slots| <= |b.slots|
    && forall i | 0 <= i < |a.slots| :: b.slots[i].p == a.slots[i].p
  }

  /** `s'` is `s` some time later, as far as the history goes. */
  ghost predicate Later(s: State, s': State) {
    && s.log <= s'.log && |s'.lanes| == |s.lanes|
    && (forall k | 0 <= k < |s.lanes| :: SlotsKept(s.lanes[k], s'.lanes[k]))
    && (forall p | p in s.born :: p in s'.born && s'.born[p] == s.born[p])
  }

  lemma LaterStill(s: State, s1: State, s2: State)
    requires Later(s, s1) && Later(s1, s2)
    ensures Later(s, s2)
  {
    forall k | 0 <= k < |s.lanes| ensures SlotsKept(s.lanes[k], s2.lanes[k]) {
      assert SlotsKept(s.lanes[k], s1.lanes[k]) && SlotsKept(s1.lanes[k], s2.lanes[k]);
    }
  }

  lemma {:induction false} EnvLater(c: Config, s: State, env: seq<EnvStep>)
    ensures Later(s, ApplyAll(c, s, env))
    decreases env
  {
    if env != [] {
      var s1 := ApplyEnv(c, s, env[0]);
      EnvStepLater(c, s, env[0], s1);
      EnvLater(c, s1, env[1..]);
      LaterStill(s, s1, ApplyAll(c, s1, env[1..]));
    }
  }

  lemma EnvStepLater(c: Config, s: State, e: EnvStep, s': State)
    requires s' == ApplyEnv(c, s, e)
    ensures Later(s, s')
  {}

  lemma IterateLater(c: Config, s: State, l: nat, off: nat, eff: Effect, s': State)
    requires LanesOk(s) && LiveOk(s) && TasksOk(c, s) && l < |s.lanes| && s.lanes[l].head + off < |s.lanes[l].slots|
    requires s' == Iterate(c, s, l, off, eff).0
    ensures Later(s, s')
  {
    var pos := s.lanes[l].head + off;
    if s.lanes[l].slots[pos].complete {
      PassedOver(c, s, l, off, eff, s');
      LayoutLater(s, s');
    } else {
      UnfinishedIsOpen(c, s, l, pos);
      OpenLater(c, s, l, off, eff, s.lanes[l].slots[pos].p, s');
    }
  }

  lemma LayoutLater(s: State, s': State)
    requires SameLayout(s, s') && s.log <= s'.log
    ensures Later(s, s')
  {
    forall k | 0 <= k < |s.lanes| ensures SlotsKept(s.lanes[k], s'.lanes[k]) {
      assert SameSlotTasks(s.lanes[k], s'.lanes[k]);
    }
  }

  lemma OpenLater(c: Config, s: State, l: nat, off: nat, eff: Effect, p: Ptr, s': State)
    requires OpenAt(c, s, l, off, p) && s' == Iterate(c, s, l, off, eff).0
    ensures Later(s, s')
  {
    IterateTouches(c, s, l, off, eff, p, s');
    LayoutLater(s, s');
  }

  lemma {:induction false} PassLater(c: Config, s: State, l: nat, off: nat, script: seq<Choice>)
    requires Inv(c, s) && l < |s.lanes|
    ensures Later(s, PassFrom(c, s, l, off, script).s)
    decreases script
  {
    if script != [] {
      var s0 := ApplyAll(c, s, script[0].env);
      EnvInv(c, s, script[0].env);
      EnvLater(c, s, script[0].env);
      if s0.lanes[l].head + off < |s0.lanes[l].slots| {
        var next := Iterate(c, s0, l, off, script[0].eff);
        IterateInv(c, s0, l, off, script[0].eff);
        IterateLater(c, s0, l, off, script[0].eff, next.0);
        PassLater(c, next.0, l, next.1, script[1..]);
        LaterStill(s, s0, next.0);
        LaterStill(s, next.0, PassFrom(c, next.0, l, next.1, script[1..]).s);
      }
    }
  }

  lemma {:induction false} RunLater(c: Config, s: State, polls: seq<Poll>)
    requires Inv(c, s)
    ensures Later(s, Execute(c, s, polls))
    decreases polls
  {
    if polls == [] {
    } else if polls[0].lane >= |s.lanes| {
      RunLater(c, s, polls[1..]);
    } else {
      var s1 := PassFrom(c, s, polls[0].lane, 0, polls[0].script).s;
      PassInv(c, s, polls[0].lane, 0, polls[0].script);
      PassLater(c, s, polls[0].lane, 0, polls[0].script);
      RunLater(c, s1, polls[1..]);
      LaterStill(s, s1, Execute(c, s1, polls[1..]));
    }
  }
}
