/** Who is deleted by the worker and who is published to its owner, by the flags a task came with. */
module WorkerFate {
  import opened HrunTypes
  import opened WorkerModel
  import opened WorkerInvariant
  import opened WorkerSteps
  import opened WorkerRuns
  import opened WorkerTouch

  /** What has become of a task so far. */
  ghost predicate FateOk(s: State, p: Ptr)
    requires InLane(s, p)
  {
    var faf := FireAndForget in s.born[p].task.flags;
    && (p in s.tasks ==>
          && (FireAndForget in s.tasks[p].flags <==> faf)
          && (Complete in s.tasks[p].flags ==> ModuleComplete in s.tasks[p].flags))
    && (p in s.reclaimed ==> IsOver(s, p) && !faf)
    && (IsOver(s, p) ==> (p in s.tasks <==> !faf && p !in s.reclaimed))
  }

  ghost predicate FatesOk(s: State)
    requires LanesOk(s)
  {
    s.reclaimed <= s.born.Keys && forall p | p in s.born :: FateOk(s, p)
  }

  lemma FateStill(s: State, s': State, p: Ptr)
    requires InLane(s, p) && InLane(s', p) && FateOk(s, p) && s'.born[p] == s.born[p] && IsOver(s', p) == IsOver(s, p)
    requires (p in s'.tasks <==> p in s.tasks) && (p in s.tasks ==> s'.tasks[p] == s.tasks[p])
    requires p in s'.reclaimed <==> p in s.reclaimed
    ensures FateOk(s', p)
  {}

  // ---------------------------------------------------------------- steps of other threads

  lemma EnvFate(c: Config, s: State, e: EnvStep, s': State)
    requires LanesOk(s) && LiveOk(s) && TasksOk(c, s) && FatesOk(s) && LanesOk(s') && s' == ApplyEnv(c, s, e)
    ensures FatesOk(s')
  {
    forall p | p in s'.born ensures FateOk(s', p) {
      EnvFateOf(c, s, e, s', p);
    }
  }

  lemma EnvFateOf(c: Config, s: State, e: EnvStep, s': State, p: Ptr)
    requires LanesOk(s) && LiveOk(s) && TasksOk(c, s) && FatesOk(s) && LanesOk(s') && s' == ApplyEnv(c, s, e)
    requires p in s'.born
    ensures FateOk(s', p)
  {
    assert InLane(s', p);
    if p in s.born {
      assert InLane(s, p) && FateOk(s, p);
      SlotUntouched(c, s, e, s', p);
      if p in s.tasks {
        assert Housed(c, s, p);
        OldFate(c, s, e, s', p);
      } else {
        FateStill(s, s', p);
      }
    } else {
      NewFate(c, s, e, s', p);
    }
  }

  lemma SlotUntouched(c: Config, s: State, e: EnvStep, s': State, p: Ptr)
    requires InLane(s, p) && InLane(s', p) && s' == ApplyEnv(c, s, e)
    ensures s'.born[p] == s.born[p] && IsOver(s', p) == IsOver(s, p)
    ensures p !in s.tasks ==> p !in s'.tasks && (p in s'.reclaimed <==> p in s.reclaimed)
  {}

  lemma NewFate(c: Config, s: State, e: EnvStep, s': State, p: Ptr)
    requires s' == ApplyEnv(c, s, e) && p !in s.born && InLane(s', p) && p !in s.reclaimed
    ensures FateOk(s', p)
  {}

  lemma OldFate(c: Config, s: State, e: EnvStep, s': State, p: Ptr)
    requires s' == ApplyEnv(c, s, e) && InLane(s, p) && InLane(s', p) && FateOk(s, p) && p in s.tasks
    requires Complete in s.tasks[p].flags <==> IsOver(s, p)
    requires s'.born[p] == s.born[p] && IsOver(s', p) == IsOver(s, p)
    ensures FateOk(s', p)
  {}

  // ---------------------------------------------------------------- steps of the worker

  lemma AdmitFate(c: Config, s: State, l: nat, p: Ptr, eff: Effect, s1: State)
    requires LanesOk(s) && FatesOk(s) && OpenTask(c, s, l, p) && s1 == AdmitTask(c, s, l, p, eff) && LanesOk(s1)
    ensures FatesOk(s1)
  {
    AdmittedTaskOk(c, s, l, p, eff);
    assert FireAndForget in s1.tasks[p].flags <==> FireAndForget in s.tasks[p].flags;
    forall q | q in s1.born ensures FateOk(s1, q) {
      assert InLane(s, q) && FateOk(s, q);
      if q != p { FateStill(s, s1, q); }
    }
  }

  lemma EndFate(c: Config, s: State, l: nat, off: nat, p: Ptr, s': State)
    requires LanesOk(s) && FatesOk(s) && EndingTask(c, s, l, off, p) && s' == EndTask(c, s, l, off, p).0 && LanesOk(s')
    ensures FatesOk(s')
  {
    EndLanes(c, s, l, off, p, s');
    forall q | q in s'.born ensures FateOk(s', q) {
      assert InLane(s, q) && FateOk(s, q);
      if q != p { FateStill(s, s', q); }
    }
  }

  lemma IterateFate(c: Config, s: State, l: nat, off: nat, eff: Effect, next: (State, nat))
    requires Inv(c, s) && FatesOk(s) && l < |s.lanes| && s.lanes[l].head + off < |s.lanes[l].slots|
    requires next == Iterate(c, s, l, off, eff) && LanesOk(next.0)
    ensures FatesOk(next.0)
  {
    var pos := s.lanes[l].head + off;
    if s.lanes[l].slots[pos].complete {
      IteratePops(c, s, l, off, eff);
      PopLanes(s, l, off, next.0);
      forall q | q in next.0.born ensures FateOk(next.0, q) {
        assert InLane(s, q) && InLane(next.0, q);
        FateStill(s, next.0, q);
      }
    } else {
      UnfinishedIsOpen(c, s, l, pos);
      OpenFate(c, s, l, off, eff, s.lanes[l].slots[pos].p, next);
    }
  }

  lemma OpenFate(c: Config, s: State, l: nat, off: nat, eff: Effect, p: Ptr, next: (State, nat))
    requires Inv(c, s) && FatesOk(s) && OpenAt(c, s, l, off, p)
    requires next == Iterate(c, s, l, off, eff) && LanesOk(next.0)
    ensures FatesOk(next.0)
  {
    var s1 := AdmitTask(c, s, l, p, eff);
    FirstHalfInv(c, s, l, off, eff, p, s1);
    AdmitFate(c, s, l, p, eff, s1);
    TwoHalves(c, s, l, off, eff, p, s1, next);
    if ModuleComplete in s1.tasks[p].flags {
      EndFate(c, s1, l, off, p, next.0);
    }
  }

  // ---------------------------------------------------------------- runs

  lemma {:induction false} EnvAllFate(c: Config, s: State, env: seq<EnvStep>)
    requires Inv(c, s) && FatesOk(s)
    ensures Inv(c, ApplyAll(c, s, env)) && FatesOk(ApplyAll(c, s, env))
    decreases env
  {
    if env != [] {
      var s1 := ApplyEnv(c, s, env[0]);
      EnvStepInv(c, s, env[0]);
      EnvFate(c, s, env[0], s1);
      EnvAllFate(c, s1, env[1..]);
    }
  }

  lemma {:induction false} PassFate(c: Config, s: State, l: nat, off: nat, script: seq<Choice>)
    requires Inv(c, s) && FatesOk(s) && l < |s.lanes|
    ensures Inv(c, PassFrom(c, s, l, off, script).s) && FatesOk(PassFrom(c, s, l, off, script).s)
    decreases script
  {
    if script != [] {
      var s0 := ApplyAll(c, s, script[0].env);
      EnvAllFate(c, s, script[0].env);
      if s0.lanes[l].head + off < |s0.lanes[l].slots| {
        var next := Iterate(c, s0, l, off, script[0].eff);
        IterateInv(c, s0, l, off, script[0].eff);
        IterateFate(c, s0, l, off, script[0].eff, next);
        PassFate(c, next.0, l, next.1, script[1..]);
      }
    }
  }

  lemma {:induction false} RunFate(c: Config, s: State, polls: seq<Poll>)
    requires Inv(c, s) && FatesOk(s)
    ensures Inv(c, Execute(c, s, polls)) && FatesOk(Execute(c, s, polls))
    decreases polls
  {
    if polls == [] {
    } else if polls[0].lane >= |s.lanes| {
      RunFate(c, s, polls[1..]);
    } else {
      PassFate(c, s, polls[0].lane, 0, polls[0].script);
      RunFate(c, PassFrom(c, s, polls[0].lane, 0, polls[0].script).s, polls[1..]);
    }
  }

  /**
   * In every run: a fire-and-forget task is deleted by the worker as it ends, and by nobody else. Any
   * other task is published, complete and module-complete, as it ends, and stays allocated until its
   * owner deletes it. A task that has not ended is allocated and not published.
   */
  lemma EndedIsDeletedOrPublished(c: Config, s0: State, polls: seq<Poll>, p: Ptr)
    requires Initial(s0) && p in Execute(c, s0, polls).born
    ensures
      var s := Execute(c, s0, polls);
      && (Ended(p) in s.log && FireAndForget in s.born[p].task.flags ==> p !in s.tasks && p !in s.reclaimed)
      && (Ended(p) in s.log && FireAndForget !in s.born[p].task.flags && p !in s.reclaimed ==>
            p in s.tasks && Complete in s.tasks[p].flags && ModuleComplete in s.tasks[p].flags)
      && (p in s.reclaimed ==> Ended(p) in s.log && p !in s.tasks)
      && (Ended(p) !in s.log ==> p in s.tasks && Complete !in s.tasks[p].flags)
  {
    InitInv(c, s0);
    RunFate(c, s0, polls);
    var s := Execute(c, s0, polls);
    assert InLane(s, p) && Tally(s, p) && FateOk(s, p);
    assert p in s.tasks ==> Housed(c, s, p);
  }

  // ---------------------------------------------------------------- owners alone reclaim

  predicate EnvKeeps(env: seq<EnvStep>, p: Ptr) {
    forall i | 0 <= i < |env| :: env[i] != Reclaim(p)
  }

  predicate ScriptKeeps(script: seq<Choice>, p: Ptr) {
    forall i | 0 <= i < |script| :: EnvKeeps(script[i].env, p)
  }

  /** The owner of `p` does not delete it in this run. */
  predicate OwnerKeeps(polls: seq<Poll>, p: Ptr) {
    forall i | 0 <= i < |polls| :: ScriptKeeps(polls[i].script, p)
  }

  lemma {:induction false} EnvNotReclaimed(c: Config, s: State, env: seq<EnvStep>, p: Ptr)
    requires EnvKeeps(env, p) && p !in s.reclaimed
    ensures p !in ApplyAll(c, s, env).reclaimed
    decreases env
  {
    if env != [] {
      EnvNotReclaimed(c, ApplyEnv(c, s, env[0]), env[1..], p);
    }
  }

  lemma WorkerReclaimsNothing(c: Config, s: State, l: nat, off: nat, eff: Effect)
    requires l < |s.lanes| && s.lanes[l].head + off < |s.lanes[l].slots|
    ensures Iterate(c, s, l, off, eff).0.reclaimed == s.reclaimed
  {}

  lemma {:induction false} PassNotReclaimed(c: Config, s: State, l: nat, off: nat, script: seq<Choice>, p: Ptr)
    requires l < |s.lanes| && ScriptKeeps(script, p) && p !in s.reclaimed
    ensures p !in PassFrom(c, s, l, off, script).s.reclaimed
    decreases script
  {
    if script != [] {
      var s0 := ApplyAll(c, s, script[0].env);
      EnvNotReclaimed(c, s, script[0].env, p);
      if s0.lanes[l].head + off < |s0.lanes[l].slots| {
        var next := Iterate(c, s0, l, off, script[0].eff);
        WorkerReclaimsNothing(c, s0, l, off, script[0].eff);
        PassNotReclaimed(c, next.0, l, next.1, script[1..], p);
      }
    }
  }

  lemma {:induction false} RunNotReclaimed(c: Config, s: State, polls: seq<Poll>, p: Ptr)
    requires OwnerKeeps(polls, p) && p !in s.reclaimed
    ensures p !in Execute(c, s, polls).reclaimed
    decreases polls
  {
    if polls == [] {
    } else if polls[0].lane >= |s.lanes| {
      RunNotReclaimed(c, s, polls[1..], p);
    } else {
      PassNotReclaimed(c, s, polls[0].lane, 0, polls[0].script, p);
      RunNotReclaimed(c, PassFrom(c, s, polls[0].lane, 0, polls[0].script).s, polls[1..], p);
    }
  }

  /** A task that is not fire-and-forget outlives its end for as long as its owner does not delete it. */
  lemma PublishedStays(c: Config, s0: State, polls: seq<Poll>, p: Ptr)
    requires Initial(s0) && p in Execute(c, s0, polls).born && OwnerKeeps(polls, p)
    ensures
      var s := Execute(c, s0, polls);
      FireAndForget !in s.born[p].task.flags ==>
        p in s.tasks && (Complete in s.tasks[p].flags <==> Ended(p) in s.log)
  {
    EndedIsDeletedOrPublished(c, s0, polls, p);
    RunNotReclaimed(c, s0, polls, p);
  }
}
