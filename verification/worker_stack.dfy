/** The stack of a coroutine task: made by its first run, freed by its end, once each and in that order. */
module WorkerStack {
  import opened HrunTypes
  import opened WorkerModel
  import opened WorkerInvariant
  import opened WorkerSteps
  import opened WorkerRuns
  import opened WorkerTouch

  /**
   * If log entry `b` makes a stack, the entry before it is the admission of the same task or, for an
   * unordered task, the examination that let it in. If it frees a stack, that stack was made before
   * and the next entry ends the task.
   */
  ghost predicate StackAt(s: State, b: nat) {
    b < |s.log| ==>
      && (s.log[b].Stacked? ==>
            s.log[b].p in s.born && b > 0
            && s.log[b - 1] == if s.born[s.log[b].p].locking then Admitted(s.log[b].p) else Touched(s.log[b].p))
      && (s.log[b].Unstacked? ==>
            Stacked(s.log[b].p) in s.log[..b] && b + 1 < |s.log| && s.log[b + 1] == Ended(s.log[b].p))
  }

  ghost predicate StacksOk(s: State) {
    forall b: nat :: StackAt(s, b)
  }

  /** Entries made earlier are as they were. */
  lemma StackBefore(s: State, s': State, b: nat)
    requires StackAt(s, b) && Later(s, s') && b < |s.log|
    ensures StackAt(s', b)
  {
    assert s'.log[b] == s.log[b] && s'.log[..b] == s.log[..b];
    assert b > 0 ==> s'.log[b - 1] == s.log[b - 1];
    assert b + 1 < |s.log| ==> s'.log[b + 1] == s.log[b + 1];
  }

  /** The events of an admission: a stack is made right after the admission, or the first examination. */
  lemma AdmitStack(c: Config, s: State, l: nat, p: Ptr, x: nat)
    requires OpenTask(c, s, l, p) && x < |AdmitEvents(c, s, l, p)|
    ensures
      var es := AdmitEvents(c, s, l, p);
      && !es[x].Unstacked?
      && (es[x].Stacked? ==> es[x] == Stacked(p) && x > 0
                             && es[x - 1] == if s.born[p].locking then Admitted(p) else Touched(p))
  {}

  /** When an iteration frees a stack, the log already has its making. */
  lemma FreedWasMade(c: Config, s: State, l: nat, p: Ptr, eff: Effect, s1: State)
    requires OpenTask(c, s, l, p) && Tally(s, p) && s1 == AdmitTask(c, s, l, p, eff)
    requires p in s1.tasks && ModuleComplete in s1.tasks[p].flags && Coroutine in s1.tasks[p].flags
    ensures s1.log == s.log + AdmitEvents(c, s, l, p) && Stacked(p) in s1.log
  {
    AdmitOwnTally(c, s, l, p, eff);
    AdmittedTaskOk(c, s, l, p, eff);
  }

  lemma OpenStacks(c: Config, s: State, l: nat, off: nat, eff: Effect, p: Ptr, s': State, b: nat)
    requires OpenAt(c, s, l, off, p) && Tally(s, p) && s' == Iterate(c, s, l, off, eff).0
    requires |s.log| <= b < |s'.log|
    ensures StackAt(s', b)
  {
    var s1 := AdmitTask(c, s, l, p, eff);
    var es, fs := AdmitEvents(c, s, l, p), EndEvents(p, s1.tasks[p]);
    IterateTouches(c, s, l, off, eff, p, s');
    assert s'.log == s.log + (es + fs) && s'.born == s.born;
    if b < |s.log| + |es| {
      AdmitStack(c, s, l, p, b - |s.log|);
      MadeWithin(s, es, fs, s', b);
    } else {
      if ModuleComplete in s1.tasks[p].flags && Coroutine in s1.tasks[p].flags {
        FreedWasMade(c, s, l, p, eff, s1);
      }
      FreedWithin(s, es, p, s1.tasks[p], s', b);
    }
  }

  lemma MadeWithin(s: State, es: seq<Event>, fs: seq<Event>, s': State, b: nat)
    requires s'.log == s.log + (es + fs) && s'.born == s.born && |s.log| <= b < |s.log| + |es|
    requires
      var x := b - |s.log|;
      && !es[x].Unstacked?
      && (es[x].Stacked? ==> es[x].p in s.born && x > 0
                             && es[x - 1] == if s.born[es[x].p].locking then Admitted(es[x].p) else Touched(es[x].p))
    ensures StackAt(s', b)
  {
    StackAmong(s.log, es, fs, s'.log, b);
  }

  lemma FreedWithin(s: State, es: seq<Event>, p: Ptr, t: Task, s': State, b: nat)
    requires s'.log == s.log + (es + EndEvents(p, t)) && |s.log| + |es| <= b < |s'.log|
    requires ModuleComplete in t.flags && Coroutine in t.flags ==> Stacked(p) in s.log + es
    ensures StackAt(s', b)
  {
    StackAmong(s.log, es, EndEvents(p, t), s'.log, b);
  }

  lemma StackAmong(log: seq<Event>, es: seq<Event>, fs: seq<Event>, all: seq<Event>, b: nat)
    requires all == log + (es + fs) && |log| <= b < |all|
    ensures b < |log| + |es| ==> all[b] == es[b - |log|] && (b > |log| ==> all[b - 1] == es[b - 1 - |log|])
    ensures b >= |log| + |es| ==> all[b] == fs[b - |log| - |es|]
    ensures b + 1 < |all| && b >= |log| + |es| ==> all[b + 1] == fs[b + 1 - |log| - |es|]
    ensures b == |log| + |es| ==> all[..b] == log + es
  {}

  lemma IterateStacks(c: Config, s: State, l: nat, off: nat, eff: Effect, s': State)
    requires Inv(c, s) && StacksOk(s) && l < |s.lanes| && s.lanes[l].head + off < |s.lanes[l].slots|
    requires s' == Iterate(c, s, l, off, eff).0
    ensures StacksOk(s')
  {
    var pos := s.lanes[l].head + off;
    IterateLater(c, s, l, off, eff, s');
    forall b: nat ensures StackAt(s', b) {
      if b < |s.log| {
        StackBefore(s, s', b);
      } else if b < |s'.log| {
        if s.lanes[l].slots[pos].complete {
          PassedOver(c, s, l, off, eff, s');
        } else {
          var p := s.lanes[l].slots[pos].p;
          UnfinishedIsOpen(c, s, l, pos);
          assert Tally(s, p);
          OpenStacks(c, s, l, off, eff, p, s', b);
        }
      }
    }
  }

  lemma EnvStacks(c: Config, s: State, env: seq<EnvStep>)
    requires StacksOk(s)
    ensures StacksOk(ApplyAll(c, s, env))
  {
    var s' := ApplyAll(c, s, env);
    EnvLater(c, s, env);
    EnvLogsNothing(c, s, env);
    forall b: nat ensures StackAt(s', b) {
      if b < |s.log| { StackBefore(s, s', b); }
    }
  }

  lemma {:induction false} EnvLogsNothing(c: Config, s: State, env: seq<EnvStep>)
    ensures ApplyAll(c, s, env).log == s.log
    decreases env
  {
    if env != [] {
      EnvLogsNothing(c, ApplyEnv(c, s, env[0]), env[1..]);
    }
  }

  lemma {:induction false} PassStacks(c: Config, s: State, l: nat, off: nat, script: seq<Choice>)
    requires Inv(c, s) && StacksOk(s) && l < |s.lanes|
    ensures StacksOk(PassFrom(c, s, l, off, script).s)
    decreases script
  {
    if script != [] {
      var s0 := ApplyAll(c, s, script[0].env);
      EnvInv(c, s, script[0].env);
      EnvStacks(c, s, script[0].env);
      if s0.lanes[l].head + off < |s0.lanes[l].slots| {
        var next := Iterate(c, s0, l, off, script[0].eff);
        IterateInv(c, s0, l, off, script[0].eff);
        IterateStacks(c, s0, l, off, script[0].eff, next.0);
        PassStacks(c, next.0, l, next.1, script[1..]);
      }
    }
  }

  lemma {:induction false} RunStacks(c: Config, s: State, polls: seq<Poll>)
    requires Inv(c, s) && StacksOk(s)
    ensures StacksOk(Execute(c, s, polls))
    decreases polls
  {
    if polls == [] {
    } else if polls[0].lane >= |s.lanes| {
      RunStacks(c, s, polls[1..]);
    } else {
      PassInv(c, s, polls[0].lane, 0, polls[0].script);
      PassStacks(c, s, polls[0].lane, 0, polls[0].script);
      RunStacks(c, PassFrom(c, s, polls[0].lane, 0, polls[0].script).s, polls[1..]);
    }
  }

  /**
   * A coroutine task run locally has its stack made once, right at its first admission, and freed once,
   * later, right before it ends; and it has one at any time in between. A task dispersed from here, or
   * not a coroutine, never has one.
   */
  lemma StackOncePerLocalCoroutine(c: Config, s0: State, polls: seq<Poll>, p: Ptr)
    requires Initial(s0) && p in Execute(c, s0, polls).born
    ensures
      var s := Execute(c, s0, polls);
      && NoRepeat(s.log) && StacksOk(s)
      && (Unstacked(p) in s.log <==> s.born[p].stacked && Ended(p) in s.log)
      && (Unstacked(p) in s.log ==> Stacked(p) in s.log)
      && (Stacked(p) in s.log ==> s.born[p].stacked)
      && (Ended(p) !in s.log ==> p in s.tasks && (Stacked(p) in s.log <==> s.tasks[p].hasStack)
                                 && (s.tasks[p].hasStack <==> s.born[p].stacked && HasStarted in s.tasks[p].flags))
  {
    InitInv(c, s0);
    ReachableInv(c, s0, polls);
    RunStacks(c, s0, polls);
    var s := Execute(c, s0, polls);
    assert InLane(s, p) && Tally(s, p);
    assert p in s.tasks ==> Housed(c, s, p);
  }
}
