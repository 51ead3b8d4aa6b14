/** No reachable state of a worker is a dead end: with modules that finish, every open slot can be ended. */
module WorkerProgress {
  import opened HrunTypes
  import opened WorkerModel
  import opened WorkerInvariant
  import opened WorkerSteps
  import opened WorkerRuns
  import opened WorkerTouch
  import opened WorkerOrder

  // ---------------------------------------------------------------- what was entered stays in reach

  /** A pass from the head of its lane gets to `p`, if `p` was let in and has not ended. */
  ghost predicate Near(s: State, p: Ptr)
    requires p in s.tasks
  {
    p in s.born && s.born[p].lane < |s.lanes| && Entered(s.tasks[p]) && Complete !in s.tasks[p].flags ==>
      s.born[p].pos < s.lanes[s.born[p].lane].head + MAX_ITERATIONS
  }

  ghost predicate InReach(s: State) {
    forall p | p in s.tasks :: Near(s, p)
  }

  lemma {:induction false} EnvReach(c: Config, s: State, env: seq<EnvStep>)
    requires InReach(s)
    ensures InReach(ApplyAll(c, s, env))
    decreases env
  {
    if env != [] {
      EnvStepReach(c, s, env[0]);
      EnvReach(c, ApplyEnv(c, s, env[0]), env[1..]);
    }
  }

  lemma EnvStepReach(c: Config, s: State, e: EnvStep)
    requires InReach(s)
    ensures InReach(ApplyEnv(c, s, e))
  {
    var s' := ApplyEnv(c, s, e);
    forall p | p in s'.tasks ensures Near(s', p) {
      assert p in s.tasks ==> Near(s, p);
    }
  }

  lemma IterateReach(c: Config, s: State, l: nat, off: nat, eff: Effect, next: (State, nat))
    requires Inv(c, s) && InReach(s) && l < |s.lanes| && s.lanes[l].head + off < |s.lanes[l].slots|
    requires HeadBusy(s, l, off) && off < MAX_ITERATIONS && next == Iterate(c, s, l, off, eff)
    ensures InReach(next.0) && AllGrew(s, next.0) && next.0.tasks.Keys <= s.tasks.Keys
  {
    IterateGrows(c, s, l, off, eff, next);
    IterateFrame(c, s, l, off, eff, next.0);
    ReachKept(s, next.0, s.lanes[l].slots[s.lanes[l].head + off].p);
  }

  lemma IterateGrows(c: Config, s: State, l: nat, off: nat, eff: Effect, next: (State, nat))
    requires LanesOk(s) && l < |s.lanes| && s.lanes[l].head + off < |s.lanes[l].slots|
    requires HeadBusy(s, l, off) && next == Iterate(c, s, l, off, eff)
    ensures AllGrew(s, next.0)
  {
    forall k | 0 <= k < |s.lanes| ensures s.lanes[k].head <= |s.lanes[k].slots| { assert LaneOk(s, k); }
    IterateMoves(c, s, l, off, eff);
  }

  /** An iteration touches no task but the one under the cursor. */
  lemma IterateFrame(c: Config, s: State, l: nat, off: nat, eff: Effect, s': State)
    requires LanesOk(s) && LiveOk(s) && TasksOk(c, s) && l < |s.lanes| && s.lanes[l].head + off < |s.lanes[l].slots|
    requires s' == Iterate(c, s, l, off, eff).0
    ensures s'.born == s.born && s'.tasks.Keys <= s.tasks.Keys
    ensures
      var p := s.lanes[l].slots[s.lanes[l].head + off].p;
      OthersKept(s, p, s') && p in s.born && s.born[p].lane == l && s.born[p].pos == s.lanes[l].head + off
  {
    var pos := s.lanes[l].head + off;
    assert LaneOk(s, l);
    if s.lanes[l].slots[pos].complete {
      PassedOver(c, s, l, off, eff, s');
    } else {
      UnfinishedIsOpen(c, s, l, pos);
      IterateTouches(c, s, l, off, eff, s.lanes[l].slots[pos].p, s');
    }
  }

  /** Heads only move on, and only `p`, which is in reach, may have been let in. */
  lemma ReachKept(s: State, s': State, p: Ptr)
    requires InReach(s) && AllGrew(s, s') && s'.born == s.born && OthersKept(s, p, s')
    requires p in s.born && s.born[p].lane < |s.lanes|
    requires s.born[p].pos < s.lanes[s.born[p].lane].head + MAX_ITERATIONS
    ensures InReach(s')
  {
    forall q | q in s'.tasks ensures Near(s', q) {
      if q in s.born && s.born[q].lane < |s.lanes| {
        assert Grew(s.lanes[s.born[q].lane], s'.lanes[s.born[q].lane]);
        assert q in s.tasks ==> Near(s, q);
      }
    }
  }

  lemma {:induction false} PassReach(c: Config, s: State, l: nat, off: nat, script: seq<Choice>)
    requires Inv(c, s) && InReach(s) && l < |s.lanes| && HeadBusy(s, l, off) && off + |script| <= MAX_ITERATIONS
    ensures InReach(PassFrom(c, s, l, off, script).s)
    decreases script
  {
    if script != [] {
      var s0 := ApplyAll(c, s, script[0].env);
      EnvInv(c, s, script[0].env);
      EnvReach(c, s, script[0].env);
      EnvAppends(c, s, script[0].env);
      if s0.lanes[l].head + off < |s0.lanes[l].slots| {
        var next := Iterate(c, s0, l, off, script[0].eff);
        IterateInv(c, s0, l, off, script[0].eff);
        IterateReach(c, s0, l, off, script[0].eff, next);
        CursorMoves(c, s0, l, off, script[0].eff, next);
        PassReach(c, next.0, l, next.1, script[1..]);
      }
    }
  }

  lemma {:induction false} RunReach(c: Config, s: State, polls: seq<Poll>)
    requires Inv(c, s) && InReach(s) && Bounded(polls)
    ensures InReach(Execute(c, s, polls))
    decreases polls
  {
    if polls == [] {
    } else if polls[0].lane >= |s.lanes| {
      RunReach(c, s, polls[1..]);
    } else {
      PassInv(c, s, polls[0].lane, 0, polls[0].script);
      PassReach(c, s, polls[0].lane, 0, polls[0].script);
      RunReach(c, PassFrom(c, s, polls[0].lane, 0, polls[0].script).s, polls[1..]);
    }
  }

  // ---------------------------------------------------------------- one iteration ends or enters a task

  lemma Closes(c: Config, s: State, l: nat, off: nat, eff: Effect, p: Ptr, next: (State, nat))
    requires OpenAt(c, s, l, off, p) && next == Iterate(c, s, l, off, eff)
    requires ModuleComplete in AdmitTask(c, s, l, p, eff).tasks[p].flags
    ensures next.0.lanes[l].slots[s.lanes[l].head + off].complete
  {
    TwoHalves(c, s, l, off, eff, p, AdmitTask(c, s, l, p, eff), next);
  }

  /** An entered task whose module finishes is module-complete after its admission half. */
  lemma EnteredFinishes(c: Config, s: State, l: nat, p: Ptr)
    requires OpenTask(c, s, l, p) && Entered(s.tasks[p])
    requires DisableRun in s.tasks[p].flags ==> ModuleComplete in s.tasks[p].flags
    ensures ModuleComplete in AdmitTask(c, s, l, p, DONE).tasks[p].flags
  {}

  /** A task not entered yet, with its group idle, is entered. */
  lemma IdleGroupEnters(c: Config, s: State, l: nat, p: Ptr, eff: Effect)
    requires OpenTask(c, s, l, p) && !Entered(s.tasks[p]) && s.lanes[l].laneId !in s.groups
    ensures Entered(AdmitTask(c, s, l, p, eff).tasks[p])
  {
    DispatchOk(c, s.tasks[p].(laneId := s.lanes[l].laneId), s.lanes[l].laneId, s.born[p], eff);
  }

  // ---------------------------------------------------------------- going to a slot

  /** A pass in which nothing arrives and no module finishes. */
  function Stays(k: nat): (script: seq<Choice>)
    ensures |script| == k
  {
    if k == 0 then [] else [Choice([], STAY)] + Stays(k - 1)
  }

  /** The task of another slot is not touched. */
  lemma UntouchedTask(c: Config, s: State, l: nat, off: nat, eff: Effect, s': State, p: Ptr)
    requires Inv(c, s) && l < |s.lanes| && s.lanes[l].head + off < |s.lanes[l].slots|
    requires s' == Iterate(c, s, l, off, eff).0 && p in s.tasks && p != s.lanes[l].slots[s.lanes[l].head + off].p
    ensures p in s'.tasks && s'.tasks[p] == s.tasks[p] && s'.born == s.born && s'.tasks.Keys <= s.tasks.Keys
  {
    IterateFrame(c, s, l, off, eff, s');
  }

  /** Where a pass stands when its cursor is on the open slot of `p`. */
  ghost predicate Arrived(c: Config, s: State, l: nat, off: nat, p: Ptr) {
    Inv(c, s) && InReach(s) && l < |s.lanes| && HeadBusy(s, l, off) && OpenAt(c, s, l, off, p)
  }

  /** A pass of one iteration after one step of another thread. */
  lemma {:induction false} PassOnce(c: Config, s: State, l: nat, off: nat, e: EnvStep, eff: Effect)
    requires l < |s.lanes|
    ensures
      var s0 := ApplyEnv(c, s, e);
      s0.lanes[l].head + off < |s0.lanes[l].slots| ==>
        PassFrom(c, s, l, off, [Choice([e], eff)]).s == Iterate(c, s0, l, off, eff).0
  {
    var script, env := [Choice([e], eff)], [e];
    assert script[1..] == [] && env[1..] == [];
    assert ApplyAll(c, s, env) == ApplyEnv(c, s, e);
  }

  /** A pass that does not run out of slots is its first part, continued. */
  lemma {:induction false} PassSplits(c: Config, s: State, l: nat, off: nat, a: seq<Choice>, b: seq<Choice>)
    requires l < |s.lanes| && |PassFrom(c, s, l, off, a).visited| == |a|
    ensures
      var r := PassFrom(c, s, l, off, a);
      PassFrom(c, s, l, off, a + b).s == PassFrom(c, r.s, l, r.off, b).s
    decreases a
  {
    if a == [] {
      assert a + b == b;
    } else {
      var ab := a + b;
      assert ab != [] && ab[0] == a[0] && ab[1..] == a[1..] + b;
      var s0 := ApplyAll(c, s, a[0].env);
      var next := Iterate(c, s0, l, off, a[0].eff);
      PassGoesOn(c, s, l, off, a, s0, next);
      PassSplits(c, next.0, l, next.1, a[1..], b);
      PassGoesOn(c, s, l, off, ab, s0, next);
    }
  }

  lemma {:induction false} PassGoesOn(
    c: Config, s: State, l: nat, off: nat, script: seq<Choice>, s0: State, next: (State, nat))
    requires l < |s.lanes| && script != [] && s0 == ApplyAll(c, s, script[0].env)
    ensures s0.lanes[l].head + off >= |s0.lanes[l].slots| ==> PassFrom(c, s, l, off, script).visited == []
    ensures s0.lanes[l].head + off < |s0.lanes[l].slots| && next == Iterate(c, s0, l, off, script[0].eff) ==>
              var r, rest := PassFrom(c, s, l, off, script), PassFrom(c, next.0, l, next.1, script[1..]);
              r.s == rest.s && r.off == rest.off && |r.visited| == 1 + |rest.visited|
  {}

  /** The slot of `p` is at least `n` places behind the cursor of a pass. */
  ghost predicate Ahead(c: Config, s: State, l: nat, off: nat, n: nat, p: Ptr) {
    && Inv(c, s) && l < |s.lanes| && HeadBusy(s, l, off) && p in s.tasks && p in s.born
    && s.born[p].lane == l && s.born[p].pos >= s.lanes[l].head + off + n
  }

  ghost predicate LeftAlone(s: State, p: Ptr, s': State) {
    p in s.tasks && p in s'.tasks && s'.tasks[p] == s.tasks[p] && s'.born == s.born && s'.tasks.Keys <= s.tasks.Keys
  }

  /** At most `k` iterations in which no module finishes. */
  function StayOn(c: Config, s: State, l: nat, off: nat, k: nat): (s': State)
    requires l < |s.lanes|
    decreases k
  {
    if k == 0 || s.lanes[l].head + off >= |s.lanes[l].slots| then s
    else
      var next := Iterate(c, s, l, off, STAY);
      StayOn(c, next.0, l, next.1, k - 1)
  }

  lemma {:induction false} StaysIsStayOn(c: Config, s: State, l: nat, off: nat, k: nat)
    requires l < |s.lanes|
    ensures PassFrom(c, s, l, off, Stays(k)).s == StayOn(c, s, l, off, k)
    decreases k
  {
    if k > 0 {
      var script := Stays(k);
      assert script[0] == Choice([], STAY) && script[1..] == Stays(k - 1);
      assert ApplyAll(c, s, script[0].env) == s;
      if s.lanes[l].head + off < |s.lanes[l].slots| {
        var next := Iterate(c, s, l, off, STAY);
        StaysIsStayOn(c, next.0, l, next.1, k - 1);
      }
    }
  }

  /** A pass that stops before the slot of `p` leaves `p` as it was. */
  lemma {:induction false} StayLeaves(c: Config, s: State, l: nat, off: nat, k: nat, p: Ptr)
    requires Ahead(c, s, l, off, k, p)
    ensures LeftAlone(s, p, StayOn(c, s, l, off, k))
    decreases k
  {
    if k > 0 && s.lanes[l].head + off < |s.lanes[l].slots| {
      var next := Iterate(c, s, l, off, STAY);
      StepLeaves(c, s, l, off, k, next, p);
      StayLeaves(c, next.0, l, next.1, k - 1, p);
      LeftAloneStill(s, p, next.0, StayOn(c, next.0, l, next.1, k - 1));
      assert StayOn(c, s, l, off, k) == StayOn(c, next.0, l, next.1, k - 1);
    } else {
      assert StayOn(c, s, l, off, k) == s;
    }
  }

  lemma LeftAloneStill(s: State, p: Ptr, s1: State, s2: State)
    requires LeftAlone(s, p, s1) && LeftAlone(s1, p, s2)
    ensures LeftAlone(s, p, s2)
  {}

  lemma StepLeaves(c: Config, s: State, l: nat, off: nat, k: nat, next: (State, nat), p: Ptr)
    requires k > 0 && Ahead(c, s, l, off, k, p)
    requires s.lanes[l].head + off < |s.lanes[l].slots| && next == Iterate(c, s, l, off, STAY)
    ensures Ahead(c, next.0, l, next.1, k - 1, p) && LeftAlone(s, p, next.0)
  {
    assert LaneOk(s, l);
    IterateInv(c, s, l, off, STAY);
    CursorMoves(c, s, l, off, STAY, next);
    UntouchedTask(c, s, l, off, STAY, next.0, p);
  }

  /** The pass that brings the cursor to the slot of `p`, `k` places behind the head. */
  lemma PassArrives(c: Config, s: State, l: nat, k: nat, p: Ptr, r: PassResult)
    requires Inv(c, s) && InReach(s) && OpenTask(c, s, l, p) && s.born[p].pos == s.lanes[l].head + k
    requires k < MAX_ITERATIONS && r == PassFrom(c, s, l, 0, Stays(k))
    ensures Arrived(c, r.s, l, r.off, p) && r.off < MAX_ITERATIONS && |r.visited| == k
    ensures LeftAlone(s, p, r.s) && AllGrew(s, r.s)
  {
    PassExaminesInOrder(c, s, l, Stays(k));
    PassInv(c, s, l, 0, Stays(k));
    PassReach(c, s, l, 0, Stays(k));
    StayLeaves(c, s, l, 0, k, p);
    StaysIsStayOn(c, s, l, 0, k);
    ThereNow(c, s, l, k, p, r);
  }

  lemma ThereNow(c: Config, s: State, l: nat, k: nat, p: Ptr, r: PassResult)
    requires LanesOk(s) && OpenTask(c, s, l, p) && s.born[p].pos == s.lanes[l].head + k && k < MAX_ITERATIONS
    requires LanesOk(r.s) && LiveOk(r.s) && TasksOk(c, r.s) && AllGrew(s, r.s) && r.s.born == s.born
    requires p in r.s.tasks && r.s.tasks[p] == s.tasks[p]
    requires |r.visited| <= k && r.s.lanes[l].head + r.off == s.lanes[l].head + |r.visited|
    requires |r.visited| < k ==> r.s.lanes[l].head + r.off >= |r.s.lanes[l].slots|
    ensures |r.visited| == k && r.off < MAX_ITERATIONS && OpenAt(c, r.s, l, r.off, p)
  {
    assert Grew(s.lanes[l], r.s.lanes[l]);
    assert Housed(c, r.s, p) && InLane(r.s, p);
  }

  // ---------------------------------------------------------------- ending an entered task

  /** `s'` comes after `s` by passes that let nothing new arrive. */
  ghost predicate Onward(c: Config, s: State, polls: seq<Poll>, s': State) {
    && Bounded(polls) && s' == Execute(c, s, polls)
    && Inv(c, s') && InReach(s') && s'.born == s.born && AllGrew(s, s') && s'.tasks.Keys <= s.tasks.Keys
  }

  lemma {:induction false} OnePass(c: Config, s: State, l: nat, script: seq<Choice>)
    requires l < |s.lanes|
    ensures Execute(c, s, [Poll(l, script)]) == PassFrom(c, s, l, 0, script).s
  {
    var polls := [Poll(l, script)];
    assert polls[1..] == [];
  }

  /** The module finishes, by its own thread where it has one. */
  lemma FinishArrives(c: Config, s: State, l: nat, off: nat, p: Ptr, s0: State)
    requires Arrived(c, s, l, off, p) && Entered(s.tasks[p]) && s0 == ApplyEnv(c, s, Finish(p))
    ensures s0.lanes == s.lanes && s0.born == s.born && Arrived(c, s0, l, off, p) && Entered(s0.tasks[p])
    ensures s0.tasks.Keys == s.tasks.Keys
    ensures DisableRun in s0.tasks[p].flags ==> ModuleComplete in s0.tasks[p].flags
  {
    EnvStepInv(c, s, Finish(p));
    EnvStepReach(c, s, Finish(p));
    FinishOpen(c, s, l, off, p, s0);
  }

  lemma FinishOpen(c: Config, s: State, l: nat, off: nat, p: Ptr, s0: State)
    requires OpenAt(c, s, l, off, p) && Entered(s.tasks[p]) && s0 == ApplyEnv(c, s, Finish(p))
    ensures s0.lanes == s.lanes && s0.born == s.born && OpenAt(c, s0, l, off, p) && Entered(s0.tasks[p])
    ensures s0.tasks.Keys == s.tasks.Keys
    ensures DisableRun in s0.tasks[p].flags ==> ModuleComplete in s0.tasks[p].flags
  {}

  lemma FinishedHere(c: Config, s: State, l: nat, off: nat, p: Ptr, next: (State, nat))
    requires Arrived(c, s, l, off, p) && off < MAX_ITERATIONS && Entered(s.tasks[p])
    requires DisableRun in s.tasks[p].flags ==> ModuleComplete in s.tasks[p].flags
    requires next == Iterate(c, s, l, off, DONE)
    ensures Inv(c, next.0) && InReach(next.0) && next.0.born == s.born && AllGrew(s, next.0)
    ensures next.0.tasks.Keys <= s.tasks.Keys
    ensures next.0.lanes[l].slots[s.lanes[l].head + off].complete
  {
    EnteredFinishes(c, s, l, p);
    Closes(c, s, l, off, DONE, p, next);
    IterateInv(c, s, l, off, DONE);
    IterateReach(c, s, l, off, DONE, next);
    BornKept(c, s, l, off, DONE);
  }

  lemma EndEntered(c: Config, s: State, p: Ptr) returns (polls: seq<Poll>, s': State)
    requires Inv(c, s) && InReach(s) && p in s.tasks && Complete !in s.tasks[p].flags && Entered(s.tasks[p])
    ensures Onward(c, s, polls, s') && InLane(s', p) && IsOver(s', p)
  {
    assert Housed(c, s, p) && InLane(s, p) && Near(s, p);
    var l := s.born[p].lane;
    assert LaneOk(s, l);
    polls, s' := EndAt(c, s, l, p, s.born[p].pos - s.lanes[l].head);
    assert InLane(s', p);
  }

  lemma EndAt(c: Config, s: State, l: nat, p: Ptr, k: nat) returns (polls: seq<Poll>, s': State)
    requires Inv(c, s) && InReach(s) && OpenTask(c, s, l, p) && Entered(s.tasks[p])
    requires s.born[p].pos == s.lanes[l].head + k && k < MAX_ITERATIONS
    ensures Onward(c, s, polls, s') && s.born[p].pos < |s'.lanes[l].slots| && s'.lanes[l].slots[s.born[p].pos].complete
  {
    var r := PassFrom(c, s, l, 0, Stays(k));
    PassArrives(c, s, l, k, p, r);
    s' := EndFrom(c, s, l, Stays(k), p, r);
    polls := [Poll(l, Stays(k) + [Choice([Finish(p)], DONE)])];
    OnwardThrough(c, s, polls, r.s, s');
  }

  lemma OnwardThrough(c: Config, s: State, polls: seq<Poll>, s1: State, s': State)
    requires Bounded(polls) && s' == Execute(c, s, polls) && Inv(c, s') && InReach(s')
    requires s1.born == s.born && AllGrew(s, s1) && s1.tasks.Keys <= s.tasks.Keys
    requires s'.born == s1.born && AllGrew(s1, s') && s'.tasks.Keys <= s1.tasks.Keys
    ensures Onward(c, s, polls, s')
  {
    GrewTransitive(s, s1, s');
  }

  lemma EndFrom(c: Config, s: State, l: nat, script: seq<Choice>, p: Ptr, r: PassResult) returns (s': State)
    requires l < |s.lanes| && r == PassFrom(c, s, l, 0, script) && |r.visited| == |script|
    requires Arrived(c, r.s, l, r.off, p) && r.off < MAX_ITERATIONS && Entered(r.s.tasks[p])
    ensures s' == Execute(c, s, [Poll(l, script + [Choice([Finish(p)], DONE)])])
    ensures Inv(c, s') && InReach(s') && s'.born == r.s.born && AllGrew(r.s, s') && s'.tasks.Keys <= r.s.tasks.Keys
    ensures s'.born[p].pos < |s'.lanes[l].slots| && s'.lanes[l].slots[s'.born[p].pos].complete
  {
    s' := FinishFrom(c, r.s, l, r.off, p);
    FinishPass(c, s, l, script, p, r, s');
  }

  /** The whole pass: to the slot, then one iteration after the module finished. */
  lemma FinishPass(c: Config, s: State, l: nat, script: seq<Choice>, p: Ptr, r: PassResult, s': State)
    requires l < |s.lanes| && r == PassFrom(c, s, l, 0, script) && |r.visited| == |script|
    requires r.s.lanes[l].head + r.off < |r.s.lanes[l].slots|
    requires s' == Iterate(c, ApplyEnv(c, r.s, Finish(p)), l, r.off, DONE).0
    ensures Execute(c, s, [Poll(l, script + [Choice([Finish(p)], DONE)])]) == s'
  {
    var last := [Choice([Finish(p)], DONE)];
    PassSplits(c, s, l, 0, script, last);
    PassOnce(c, r.s, l, r.off, Finish(p), DONE);
    OnePass(c, s, l, script + last);
  }

  lemma FinishFrom(c: Config, s: State, l: nat, off: nat, p: Ptr) returns (s': State)
    requires Arrived(c, s, l, off, p) && off < MAX_ITERATIONS && Entered(s.tasks[p])
    ensures ApplyEnv(c, s, Finish(p)).lanes == s.lanes && s' == Iterate(c, ApplyEnv(c, s, Finish(p)), l, off, DONE).0
    ensures Inv(c, s') && InReach(s') && s'.born == s.born && AllGrew(s, s') && s'.tasks.Keys <= s.tasks.Keys
    ensures s.born[p].pos < |s'.lanes[l].slots| && s'.lanes[l].slots[s.born[p].pos].complete
  {
    var s0 := ApplyEnv(c, s, Finish(p));
    FinishArrives(c, s, l, off, p, s0);
    s' := IterateFinished(c, s0, l, off, p);
    GrewFrom(s, s0, s');
  }

  lemma IterateFinished(c: Config, s: State, l: nat, off: nat, p: Ptr) returns (s': State)
    requires Arrived(c, s, l, off, p) && off < MAX_ITERATIONS && Entered(s.tasks[p])
    requires DisableRun in s.tasks[p].flags ==> ModuleComplete in s.tasks[p].flags
    ensures s' == Iterate(c, s, l, off, DONE).0
    ensures Inv(c, s') && InReach(s') && s'.born == s.born && AllGrew(s, s') && s'.tasks.Keys <= s.tasks.Keys
    ensures s.born[p].pos < |s'.lanes[l].slots| && s'.lanes[l].slots[s.born[p].pos].complete
  {
    FinishedHere(c, s, l, off, p, Iterate(c, s, l, off, DONE));
    s' := Iterate(c, s, l, off, DONE).0;
    assert Grew(s.lanes[l], s'.lanes[l]);
  }

  lemma GrewFrom(s: State, s0: State, s': State)
    requires s0.lanes == s.lanes && AllGrew(s0, s')
    ensures AllGrew(s, s')
  {
    forall i | 0 <= i < |s.lanes| ensures Grew(s.lanes[i], s'.lanes[i]) {
      assert Grew(s0.lanes[i], s'.lanes[i]);
    }
  }

  // ---------------------------------------------------------------- ending something in any state

  ghost function Open(s: State): set<Ptr> {
    set p | p in s.born && InLane(s, p) && !IsOver(s, p)
  }

  lemma OpenShrinks(s: State, s': State, p: Ptr)
    requires LanesOk(s) && LanesOk(s') && s'.born == s.born && AllGrew(s, s')
    requires p in Open(s) && IsOver(s', p)
    ensures |Open(s')| < |Open(s)|
  {
    forall q | q in Open(s') ensures q in Open(s) - {p} {
      assert InLane(s, q);
      assert Grew(s.lanes[s.born[q].lane], s'.lanes[s.born[q].lane]);
    }
    CardinalityMonotone(Open(s'), Open(s) - {p});
  }

  lemma OpenIsLive(c: Config, s: State, p: Ptr)
    requires LanesOk(s) && LiveOk(s) && TasksOk(c, s) && p in Open(s)
    ensures p in s.tasks && Complete !in s.tasks[p].flags && OpenTask(c, s, s.born[p].lane, p)
  {
    assert Housed(c, s, p);
  }

  /** The first open slot of a lane that has one. */
  lemma {:induction false} FirstOpen(lane: Lane, from: nat, some: nat) returns (pos: nat)
    requires from <= some < |lane.slots| && !lane.slots[some].complete
    ensures from <= pos < |lane.slots| && !lane.slots[pos].complete
    ensures forall i | from <= i < pos :: lane.slots[i].complete
    decreases some - from
  {
    if lane.slots[from].complete {
      pos := FirstOpen(lane, from + 1, some);
    } else {
      pos := from;
    }
  }

  lemma PollHead(c: Config, s: State, l: nat, eff: Effect)
    requires l < |s.lanes| && s.lanes[l].head < |s.lanes[l].slots|
    ensures Execute(c, s, [Poll(l, [Choice([], eff)])]) == Iterate(c, s, l, 0, eff).0
  {
    var script := [Choice([], eff)];
    OnePass(c, s, l, script);
    assert script[1..] == [];
  }

  lemma {:induction false} ThenPolls(c: Config, s: State, a: seq<Poll>, b: seq<Poll>)
    ensures Execute(c, s, a + b) == Execute(c, Execute(c, s, a), b)
    decreases a
  {
    if a == [] {
      assert a + b == b;
    } else {
      assert (a + b)[0] == a[0] && (a + b)[1..] == a[1..] + b;
      if a[0].lane >= |s.lanes| {
        ThenPolls(c, s, a[1..], b);
      } else {
        ThenPolls(c, PassFrom(c, s, a[0].lane, 0, a[0].script).s, a[1..], b);
      }
    }
  }

  lemma OnwardOn(c: Config, s: State, a: seq<Poll>, s1: State, b: seq<Poll>, s2: State)
    requires Onward(c, s, a, s1) && Onward(c, s1, b, s2)
    ensures Onward(c, s, a + b, s2)
  {
    ThenPolls(c, s, a, b);
    GrewTransitive(s, s1, s2);
  }

  lemma NotMoving(c: Config, s: State)
    requires Inv(c, s) && InReach(s)
    ensures Onward(c, s, [], s)
  {
    forall i | 0 <= i < |s.lanes| ensures Grew(s.lanes[i], s.lanes[i]) { assert LaneOk(s, i); }
  }

  /** One examination of the head slot. */
  lemma PollOnward(c: Config, s: State, l: nat, eff: Effect, s': State)
    requires Inv(c, s) && InReach(s) && l < |s.lanes| && s.lanes[l].head < |s.lanes[l].slots|
    requires s' == Iterate(c, s, l, 0, eff).0
    ensures Onward(c, s, [Poll(l, [Choice([], eff)])], s')
  {
    PollHead(c, s, l, eff);
    IterateInv(c, s, l, 0, eff);
    IterateReach(c, s, l, 0, eff, Iterate(c, s, l, 0, eff));
    BornKept(c, s, l, 0, eff);
  }

  /** Pop the closed slots in front of `pos`. */
  lemma {:induction false} PopTo(c: Config, s: State, l: nat, pos: nat) returns (polls: seq<Poll>, s': State)
    requires Inv(c, s) && InReach(s) && l < |s.lanes| && s.lanes[l].head <= pos < |s.lanes[l].slots|
    requires forall i | s.lanes[l].head <= i < pos :: s.lanes[l].slots[i].complete
    ensures Onward(c, s, polls, s') && s'.lanes[l].head == pos && s'.tasks == s.tasks && s'.groups == s.groups
    decreases pos - s.lanes[l].head
  {
    if s.lanes[l].head == pos {
      NotMoving(c, s);
      polls, s' := [], s;
    } else {
      var s1 := Iterate(c, s, l, 0, STAY).0;
      PollOnward(c, s, l, STAY, s1);
      assert s1.lanes[l] == s.lanes[l].(head := s.lanes[l].head + 1);
      var rest, s2 := PopTo(c, s1, l, pos);
      OnwardOn(c, s, [Poll(l, [Choice([], STAY)])], s1, rest, s2);
      polls, s' := [Poll(l, [Choice([], STAY)])] + rest, s2;
    }
  }

  /** Nothing entered means no group held: the head of a lane is entered, or ended at once. */
  lemma EnterHead(c: Config, s: State, l: nat, p: Ptr, s': State)
    requires Inv(c, s) && InReach(s) && OpenAt(c, s, l, 0, p) && !Entered(s.tasks[p])
    requires s.lanes[l].laneId !in s.groups && s' == Iterate(c, s, l, 0, DONE).0
    ensures Onward(c, s, [Poll(l, [Choice([], DONE)])], s') && InLane(s', p)
    ensures !IsOver(s', p) ==> p in s'.tasks && Complete !in s'.tasks[p].flags && Entered(s'.tasks[p])
  {
    PollOnward(c, s, l, DONE, s');
    EntersOrCloses(c, s, l, p, s');
    assert InLane(s', p);
  }

  lemma EntersOrCloses(c: Config, s: State, l: nat, p: Ptr, s': State)
    requires OpenAt(c, s, l, 0, p) && !Entered(s.tasks[p])
    requires s.lanes[l].laneId !in s.groups && s' == Iterate(c, s, l, 0, DONE).0
    ensures
      || s'.lanes[l].slots[s.lanes[l].head].complete
      || (p in s'.tasks && Complete !in s'.tasks[p].flags && Entered(s'.tasks[p]))
  {
    var s1, next := AdmitTask(c, s, l, p, DONE), Iterate(c, s, l, 0, DONE);
    IdleGroupEnters(c, s, l, p, DONE);
    AdmittedTaskOk(c, s, l, p, DONE);
    TwoHalves(c, s, l, 0, DONE, p, s1, next);
    if ModuleComplete in s1.tasks[p].flags {
      Closes(c, s, l, 0, DONE, p, next);
    }
  }

  lemma NobodyHolds(c: Config, s: State, k: u32)
    requires LanesOk(s) && LiveOk(s) && TasksOk(c, s) && GroupsOk(c, s.tasks, s.groups)
    requires forall p | p in Open(s) :: p in s.tasks && !Entered(s.tasks[p])
    ensures k !in s.groups
  {
    assert GroupOk(c, s.tasks, s.groups, k);
    forall h | h in s.tasks ensures h !in Holders(c, s.tasks, k) {
      assert Housed(c, s, h) && InLane(s, h);
      assert !IsOver(s, h) ==> h in Open(s);
    }
    assert Holders(c, s.tasks, k) == {};
  }

  lemma EndUnentered(c: Config, s: State, some: Ptr) returns (polls: seq<Poll>, s': State, p: Ptr)
    requires Inv(c, s) && InReach(s) && some in Open(s)
    requires forall q | q in Open(s) :: q in s.tasks && !Entered(s.tasks[q])
    ensures Onward(c, s, polls, s') && p in Open(s) && IsOver(s', p)
  {
    var l := s.born[some].lane;
    assert LaneOk(s, l);
    var pos := FirstOpen(s.lanes[l], s.lanes[l].head, s.born[some].pos);
    p := s.lanes[l].slots[pos].p;
    UnfinishedIsOpen(c, s, l, pos);
    NobodyHolds(c, s, s.lanes[l].laneId);
    var first, s1 := PopTo(c, s, l, pos);
    EnterAt(c, s, l, pos, p, first, s1);
    var s2 := Iterate(c, s1, l, 0, DONE).0;
    EnterHead(c, s1, l, p, s2);
    OnwardOn(c, s, first, s1, [Poll(l, [Choice([], DONE)])], s2);
    polls, s' := first + [Poll(l, [Choice([], DONE)])], s2;
    if !IsOver(s2, p) {
      var last, s3 := EndEntered(c, s2, p);
      OnwardOn(c, s, polls, s2, last, s3);
      polls, s' := polls + last, s3;
    }
  }

  /** After popping what was closed, the first open slot is the head. */
  lemma EnterAt(c: Config, s: State, l: nat, pos: nat, p: Ptr, polls: seq<Poll>, s1: State)
    requires Onward(c, s, polls, s1) && OpenTask(c, s, l, p) && s.born[p].pos == pos
    requires s1.lanes[l].head == pos && s1.tasks == s.tasks
    ensures OpenAt(c, s1, l, 0, p) && s1.lanes[l].laneId == s.lanes[l].laneId
  {
    assert Grew(s.lanes[l], s1.lanes[l]);
    assert Housed(c, s1, p) && InLane(s1, p);
  }

  lemma EndSome(c: Config, s: State) returns (polls: seq<Poll>, s': State)
    requires Inv(c, s) && InReach(s) && Open(s) != {}
    ensures Onward(c, s, polls, s') && |Open(s')| < |Open(s)|
  {
    forall q | q in Open(s) ensures q in s.tasks && Complete !in s.tasks[q].flags { OpenIsLive(c, s, q); }
    var p: Ptr;
    if q :| q in Open(s) && Entered(s.tasks[q]) {
      p := q;
      polls, s' := EndEntered(c, s, q);
    } else {
      var some :| some in Open(s);
      polls, s', p := EndUnentered(c, s, some);
    }
    OpenShrinks(s, s', p);
  }

  lemma {:induction false} EndAll(c: Config, s: State) returns (polls: seq<Poll>, s': State)
    requires Inv(c, s) && InReach(s)
    ensures Onward(c, s, polls, s') && Open(s') == {}
    decreases |Open(s)|
  {
    if Open(s) == {} {
      NotMoving(c, s);
      polls, s' := [], s;
    } else {
      var first, s1 := EndSome(c, s);
      var rest, s2 := EndAll(c, s1);
      OnwardOn(c, s, first, s1, rest, s2);
      polls, s' := first + rest, s2;
    }
  }

  /**
   * However a run went so far, with passes of at most 1024 iterations: if modules finish when they are
   * run, some further passes, with nothing new arriving, end every task that is in a lane.
   */
  lemma EverySlotCanEnd(c: Config, s0: State, polls: seq<Poll>) returns (more: seq<Poll>)
    requires Initial(s0) && Bounded(polls)
    ensures Bounded(more)
    ensures
      var s, s' := Execute(c, s0, polls), Execute(c, s0, polls + more);
      s'.born == s.born && forall p | p in s.born :: Ended(p) in s'.log
  {
    InitInv(c, s0);
    ReachableInv(c, s0, polls);
    RunReach(c, s0, polls);
    var s := Execute(c, s0, polls);
    var last, s' := EndAll(c, s);
    more := last;
    ThenPolls(c, s0, polls, more);
    forall p | p in s.born ensures Ended(p) in s'.log {
      assert InLane(s', p) && Tally(s', p);
      assert p !in Open(s');
    }
  }
}
