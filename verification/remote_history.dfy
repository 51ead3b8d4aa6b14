/** Remote execution told from the steps of a run and the bits a task was submitted with. */
module RemoteHistory {
  import opened HrunTypes
  import opened RemoteModel
  import opened RemoteProofs
  import opened RemoteTheorems
  import opened RemoteProgress

  // ---------------------------------------------------------------- where a task runs, by its domain bits

  /** Replica `r` of a task submitted on `node` with domain `d` is to run on node `m`. */
  predicate RunsOn(numHosts: u32, d: DomainId, node: u32, r: nat, m: u32) {
    if numHosts == 1 then r == 0 && m == node
    else if KGlobal in d.flags then 1 <= m <= numHosts && r == m - 1
    else if KNode in d.flags then r == 0 && m == d.id
    else if KSet in d.flags then false
    else r == 0 && m == node
  }

  /** The task is sent through the remote queue. */
  predicate IsSent(numHosts: u32, d: DomainId, node: u32) {
    numHosts != 1 && (KGlobal in d.flags || KSet in d.flags || (KNode in d.flags && d.id != node))
  }

  lemma TargetsByBits(numHosts: u32, d: DomainId, node: u32, r: nat, m: u32)
    requires IsSent(numHosts, d, node)
    ensures
      var targets := Resolve(d, numHosts);
      (r < |targets| && targets[r] == m) <==> RunsOn(numHosts, d, node, r, m)
  {}

  lemma AwayByBits(numHosts: u32, t: NetTask)
    ensures Away(numHosts, t) <==> IsSent(numHosts, t.domain, t.node)
  {}

  /**
   * In every run, from domain bits, id, host count and node numbers alone. A global task runs once on
   * each of the nodes 1 to numHosts; one with a node bit and not global runs once, on that node, and
   * nowhere else; a bare node set runs nowhere; all others, and every task of a single host, run once
   * at home. Each of these at most once at any time, and exactly once when the task is module-complete.
   * A task goes through the remote queue at most once, and exactly if its bits say so.
   */
  lemma WhereATaskRuns(numHosts: u32, steps: seq<Step>, g: Gid)
    requires g in ApplySteps(numHosts, EMPTY, steps).tasks && ApplySteps(numHosts, EMPTY, steps).tasks[g].role == Origin
    ensures
      var n := ApplySteps(numHosts, EMPTY, steps);
      var t := n.tasks[g];
      && 1 <= t.node <= numHosts
      && (forall r: nat, m: u32 :: n.runs[(g, r, m)] <= if RunsOn(numHosts, t.domain, t.node, r, m) then 1 else 0)
      && (ModuleComplete in t.flags ==> forall r: nat, m: u32 ::
            n.runs[(g, r, m)] == if RunsOn(numHosts, t.domain, t.node, r, m) then 1 else 0)
      && n.dispersals[g] <= (if IsSent(numHosts, t.domain, t.node) then 1 else 0)
      && (ModuleComplete in t.flags ==>
            n.dispersals[g] == if IsSent(numHosts, t.domain, t.node) then 1 else 0)
  {
    EmptyInv(numHosts);
    ReachableInv(numHosts, EMPTY, steps);
    var n := ApplySteps(numHosts, EMPTY, steps);
    var t := n.tasks[g];
    assert TaskOk(numHosts, n, g);
    AwayByBits(numHosts, t);
    if Away(numHosts, t) {
      ExactlyOncePerNode(numHosts, steps, g);
      forall r: nat, m: u32
        ensures n.runs[(g, r, m)] <= if RunsOn(numHosts, t.domain, t.node, r, m) then 1 else 0
        ensures ModuleComplete in t.flags ==>
                  n.runs[(g, r, m)] == if RunsOn(numHosts, t.domain, t.node, r, m) then 1 else 0
      {
        TargetsByBits(numHosts, t.domain, t.node, r, m);
      }
    } else {
      LocalTaskRunsOnceAtHome(numHosts, steps, g);
      HomeByBits(numHosts, t);
    }
  }

  lemma HomeByBits(numHosts: u32, t: NetTask)
    requires !Away(numHosts, t)
    ensures forall r: nat, m: u32 :: RunsOn(numHosts, t.domain, t.node, r, m) <==> r == 0 && m == t.node
  {}

  // ---------------------------------------------------------------- deletion and publication of an original

  /** A fire-and-forget original is deleted by its worker as it ends; any other is published for its owner to delete. */
  lemma OriginalIsDeletedOrPublished(numHosts: u32, steps: seq<Step>, g: Gid)
    requires g in ApplySteps(numHosts, EMPTY, steps).tasks && ApplySteps(numHosts, EMPTY, steps).tasks[g].role == Origin
    ensures
      var t := ApplySteps(numHosts, EMPTY, steps).tasks[g];
      && t.dels <= 1 && (!t.over ==> t.dels == 0)
      && (t.over && FireAndForget in t.flags ==> t.dels == 1 && Complete !in t.flags)
      && (t.over && FireAndForget !in t.flags ==> Complete in t.flags && ModuleComplete in t.flags)
  {
    EmptyInv(numHosts);
    ReachableInv(numHosts, EMPTY, steps);
    assert TaskOk(numHosts, ApplySteps(numHosts, EMPTY, steps), g);
  }

  // ---------------------------------------------------------------- back to the steps of a run

  function After(numHosts: u32, steps: seq<Step>, k: nat): Net
    requires k <= |steps|
  {
    ApplySteps(numHosts, EMPTY, steps[..k])
  }

  lemma AfterLast(numHosts: u32, prev: seq<Step>, st: Step)
    ensures ApplySteps(numHosts, EMPTY, prev + [st]) == Apply(numHosts, ApplySteps(numHosts, EMPTY, prev), st)
  {
    StepsThenMore(numHosts, EMPTY, prev, [st]);
    OneStep(numHosts, ApplySteps(numHosts, EMPTY, prev), st);
  }

  lemma OneStep(numHosts: u32, n: Net, st: Step)
    ensures ApplySteps(numHosts, n, [st]) == Apply(numHosts, n, st)
  {
    var one := [st];
    assert one[1..] == [];
  }

  /** Step `k` is the run, inline or in a thread of its own, that completed task `h` with result `v`. */
  ghost predicate CompletedAt(numHosts: u32, steps: seq<Step>, k: nat, h: Gid, v: int) {
    && k < |steps| && (steps[k] == Run(h, true, v) || steps[k] == ThreadDone(h, v))
    && h in After(numHosts, steps, k).tasks && ModuleComplete !in After(numHosts, steps, k).tasks[h].flags
    && h in After(numHosts, steps, k + 1).tasks && ModuleComplete in After(numHosts, steps, k + 1).tasks[h].flags
  }

  lemma CompletedStill(numHosts: u32, prev: seq<Step>, st: Step, k: nat, h: Gid, v: int)
    requires CompletedAt(numHosts, prev, k, h, v)
    ensures CompletedAt(numHosts, prev + [st], k, h, v)
  {
    var steps := prev + [st];
    assert steps[..k] == prev[..k] && steps[..k + 1] == prev[..k + 1];
  }

  /** A task without a push, module-complete before the step, keeps its result. */
  lemma ResultKept(numHosts: u32, n: Net, st: Step, h: Gid)
    requires Inv(numHosts, n) && h in n.tasks && h !in n.pushes && ModuleComplete in n.tasks[h].flags
    ensures
      var n' := Apply(numHosts, n, st);
      h in n'.tasks && h !in n'.pushes && n'.tasks[h].ret == n.tasks[h].ret && ModuleComplete in n'.tasks[h].flags
  {
    assert TaskOk(numHosts, n, h);
    CopiesStayHome(numHosts, n, h);
    HomeResultKept(numHosts, n, st, h, Apply(numHosts, n, st));
  }

  lemma HomeResultKept(numHosts: u32, n: Net, st: Step, h: Gid, n': Net)
    requires h in n.tasks && h !in n.pushes && ModuleComplete in n.tasks[h].flags && !Away(numHosts, n.tasks[h])
    requires n' == Apply(numHosts, n, st) && !n.tasks[h].busy
    ensures h in n'.tasks && h !in n'.pushes && n'.tasks[h].ret == n.tasks[h].ret
    ensures ModuleComplete in n'.tasks[h].flags
  {}

  /** A task without a push becomes module-complete by its own run only, which writes its result. */
  lemma ResultWritten(numHosts: u32, n: Net, st: Step, h: Gid) returns (v: int)
    requires Inv(numHosts, n)
    requires
      var n' := Apply(numHosts, n, st);
      h in n'.tasks && h !in n'.pushes && ModuleComplete in n'.tasks[h].flags
    requires !(h in n.tasks && ModuleComplete in n.tasks[h].flags)
    ensures h in n.tasks && (st == Run(h, true, v) || st == ThreadDone(h, v))
    ensures Apply(numHosts, n, st).tasks[h].ret == [v]
  {
    if h !in n.tasks {
      NewTasksUnfinished(numHosts, n, st, h);
    }
    OneResult(numHosts, n, h, st);
    if st.Run? {
      v := st.value;
    } else if st.ThreadDone? {
      v := st.value;
    } else {
      v := 0;
      OnlyRunsComplete(numHosts, n, st, h);
    }
  }

  lemma NewTasksUnfinished(numHosts: u32, n: Net, st: Step, h: Gid)
    requires Inv(numHosts, n) && h !in n.tasks && h in Apply(numHosts, n, st).tasks
    ensures ModuleComplete !in Apply(numHosts, n, st).tasks[h].flags
  {
    if st.RpcExec? {
      assert PushOk(numHosts, n.tasks[st.g], n.pushes[st.g]);
    }
  }

  lemma OnlyRunsComplete(numHosts: u32, n: Net, st: Step, h: Gid)
    requires h in n.tasks && ModuleComplete !in n.tasks[h].flags && h !in Apply(numHosts, n, st).pushes
    requires !st.Run? && !st.ThreadDone?
    ensures ModuleComplete !in Apply(numHosts, n, st).tasks[h].flags
  {}

  lemma OneResult(numHosts: u32, n: Net, h: Gid, st: Step)
    requires Inv(numHosts, n) && h in n.tasks && h !in Apply(numHosts, n, st).pushes
    ensures h !in n.pushes && |n.tasks[h].ret| == 1
  {
    assert TaskOk(numHosts, n, h);
    PushesStay(numHosts, n, st, h);
  }

  lemma PushesStay(numHosts: u32, n: Net, st: Step, h: Gid)
    ensures h in n.pushes ==> h in Apply(numHosts, n, st).pushes
  {}

  /** The step of the run that completed a task with no push of its own, and the result it left. */
  lemma {:induction false} ResultHistory(numHosts: u32, steps: seq<Step>, h: Gid) returns (k: nat, v: int)
    requires
      var n := ApplySteps(numHosts, EMPTY, steps);
      h in n.tasks && h !in n.pushes && ModuleComplete in n.tasks[h].flags
    ensures CompletedAt(numHosts, steps, k, h, v)
    ensures ApplySteps(numHosts, EMPTY, steps).tasks[h].ret == [v]
    decreases |steps|
  {
    var prev, st := steps[..|steps| - 1], steps[|steps| - 1];
    assert steps == prev + [st];
    AfterLast(numHosts, prev, st);
    EmptyInv(numHosts);
    ReachableInv(numHosts, EMPTY, prev);
    var n := ApplySteps(numHosts, EMPTY, prev);
    if h in n.tasks && ModuleComplete in n.tasks[h].flags {
      OneResult(numHosts, n, h, st);
      k, v := ResultHistory(numHosts, prev, h);
      CompletedStill(numHosts, prev, st, k, h, v);
      ResultKept(numHosts, n, st, h);
    } else {
      v := ResultWritten(numHosts, n, st, h);
      k := |prev|;
      assert steps[..k] == prev && steps[..k + 1] == steps;
    }
  }

  /**
   * Slot r of a finished replicated task holds the very value that the run of the r-th replica produced
   * in the step that completed it; a task with one slot holds the last replica's.
   */
  lemma SlotHoldsProducedValue(numHosts: u32, steps: seq<Step>, g: Gid, r: nat) returns (k: nat, v: int)
    requires
      var n := ApplySteps(numHosts, EMPTY, steps);
      && g in n.tasks && n.tasks[g].role == Origin && ModuleComplete in n.tasks[g].flags
      && IsSent(numHosts, n.tasks[g].domain, n.tasks[g].node) && r < |Resolve(n.tasks[g].domain, numHosts)|
    ensures
      var n := ApplySteps(numHosts, EMPTY, steps);
      var t := n.tasks[g];
      && g in n.pushes && r < |n.pushes[g].copies| && CompletedAt(numHosts, steps, k, n.pushes[g].copies[r], v)
      && (t.replicates ==> r < |t.ret| && t.ret[r] == v)
      && (!t.replicates && r == |Resolve(t.domain, numHosts)| - 1 ==> t.ret == [v])
  {
    var n := ApplySteps(numHosts, EMPTY, steps);
    AwayByBits(numHosts, n.tasks[g]);
    CompleteMeansAllOutputsLoaded(numHosts, steps, g);
    EmptyInv(numHosts);
    ReachableInv(numHosts, EMPTY, steps);
    var h := n.pushes[g].copies[r];
    assert TaskOk(numHosts, n, h) && CopyOk(numHosts, n.tasks[h]);
    k, v := ResultHistory(numHosts, steps, h);
  }

  /** A task that ran at home holds the value its own run produced. */
  lemma HomeResult(numHosts: u32, steps: seq<Step>, g: Gid) returns (k: nat, v: int)
    requires
      var n := ApplySteps(numHosts, EMPTY, steps);
      && g in n.tasks && n.tasks[g].role == Origin && ModuleComplete in n.tasks[g].flags
      && !IsSent(numHosts, n.tasks[g].domain, n.tasks[g].node)
    ensures CompletedAt(numHosts, steps, k, g, v) && ApplySteps(numHosts, EMPTY, steps).tasks[g].ret == [v]
  {
    var n := ApplySteps(numHosts, EMPTY, steps);
    AwayByBits(numHosts, n.tasks[g]);
    EmptyInv(numHosts);
    ReachableInv(numHosts, EMPTY, steps);
    assert TaskOk(numHosts, n, g);
    k, v := ResultHistory(numHosts, steps, g);
  }

  // ---------------------------------------------------------------- what was submitted is what is sent

  /** Step `k` submitted `g` with these flags, and the task as it is in `t` comes from that. */
  ghost predicate SubmittedAt(numHosts: u32, steps: seq<Step>, k: nat, g: Gid, t: NetTask, flags: set<Flag>) {
    && k < |steps| && steps[k] == Submit(g, t.node, t.domain, flags, t.replicates)
    && g !in After(numHosts, steps, k).tasks && g in After(numHosts, steps, k + 1).tasks
  }

  lemma SubmittedStill(numHosts: u32, prev: seq<Step>, st: Step, k: nat, g: Gid, t: NetTask, flags: set<Flag>)
    requires SubmittedAt(numHosts, prev, k, g, t, flags)
    ensures SubmittedAt(numHosts, prev + [st], k, g, t, flags)
  {
    var steps := prev + [st];
    assert steps[..k] == prev[..k] && steps[..k + 1] == prev[..k + 1];
  }

  /** What is left of the submitted flags at the origin, and what its push serialised. */
  ghost predicate FlagsKept(numHosts: u32, n: Net, g: Gid, flags: set<Flag>)
    requires g in n.tasks
  {
    var t := n.tasks[g];
    && (FireAndForget in t.flags <==> FireAndForget in flags)
    && (g in n.pushes ==> n.pushes[g].wire == flags)
    && (g !in n.pushes && Away(numHosts, t) ==> t.flags == flags)
  }

  lemma FlagsStill(numHosts: u32, n: Net, st: Step, g: Gid, flags: set<Flag>, n': Net)
    requires Inv(numHosts, n) && g in n.tasks && n.tasks[g].role == Origin && FlagsKept(numHosts, n, g, flags)
    requires n' == Apply(numHosts, n, st)
    ensures g in n'.tasks && FlagsKept(numHosts, n', g, flags)
  {
    assert TaskOk(numHosts, n, g);
    OriginFlagsStill(numHosts, n, st, g, flags, n');
  }

  /** Who a task is, where it was submitted and for whom, never changes. */
  lemma IdentityStays(numHosts: u32, n: Net, st: Step, g: Gid, n': Net)
    requires g in n.tasks && n' == Apply(numHosts, n, st)
    ensures
      && g in n'.tasks && n'.tasks[g].role == n.tasks[g].role && n'.tasks[g].node == n.tasks[g].node
      && n'.tasks[g].domain == n.tasks[g].domain && n'.tasks[g].replicates == n.tasks[g].replicates
  {}

  lemma OriginFlagsStill(numHosts: u32, n: Net, st: Step, g: Gid, flags: set<Flag>, n': Net)
    requires g in n.tasks && n.tasks[g].role == Origin && FlagsKept(numHosts, n, g, flags)
    requires OriginOk(numHosts, n.tasks[g], g in n.pushes) && n' == Apply(numHosts, n, st)
    ensures g in n'.tasks && FlagsKept(numHosts, n', g, flags)
  {
    FireAndForgetStays(numHosts, n, st, g, n');
    WireStays(numHosts, n, st, g, n');
    if g !in n'.pushes && Away(numHosts, n.tasks[g]) {
      UnsentStays(numHosts, n, st, g, n');
    }
  }

  lemma FireAndForgetStays(numHosts: u32, n: Net, st: Step, g: Gid, n': Net)
    requires g in n.tasks && n' == Apply(numHosts, n, st)
    ensures g in n'.tasks && (FireAndForget in n'.tasks[g].flags <==> FireAndForget in n.tasks[g].flags)
    ensures n'.tasks[g].domain == n.tasks[g].domain && n'.tasks[g].node == n.tasks[g].node
  {}

  /** The flags serialised are the flags of the moment, and are never touched again. */
  lemma WireStays(numHosts: u32, n: Net, st: Step, g: Gid, n': Net)
    requires g in n.tasks && n' == Apply(numHosts, n, st)
    requires Away(numHosts, n.tasks[g]) && g in n.pushes ==> n.tasks[g].busy || DisableRun in n.tasks[g].flags
    ensures g in n.pushes ==> g in n'.pushes && n'.pushes[g].wire == n.pushes[g].wire
    ensures g !in n.pushes && g in n'.pushes ==> n'.pushes[g].wire == n.tasks[g].flags && Away(numHosts, n.tasks[g])
  {}

  /** A task still to be sent is not touched. */
  lemma UnsentStays(numHosts: u32, n: Net, st: Step, g: Gid, n': Net)
    requires g in n.tasks && Away(numHosts, n.tasks[g]) && OriginOk(numHosts, n.tasks[g], false)
    requires g !in n.pushes && g !in n'.pushes && n' == Apply(numHosts, n, st)
    ensures g in n'.tasks && n'.tasks[g].flags == n.tasks[g].flags
  {}

  lemma NewOrigin(numHosts: u32, n: Net, st: Step, g: Gid) returns (flags: set<Flag>)
    requires Inv(numHosts, n) && g !in n.tasks
    requires g in Apply(numHosts, n, st).tasks && Apply(numHosts, n, st).tasks[g].role == Origin
    ensures
      var n' := Apply(numHosts, n, st);
      && st == Submit(g, n'.tasks[g].node, n'.tasks[g].domain, flags, n'.tasks[g].replicates)
      && FlagsKept(numHosts, n', g, flags)
  {
    assert g in n.pushes ==> g in n.tasks;
    flags := st.flags;
  }

  lemma {:induction false} SubmitHistory(numHosts: u32, steps: seq<Step>, g: Gid) returns (k: nat, flags: set<Flag>)
    requires g in ApplySteps(numHosts, EMPTY, steps).tasks && ApplySteps(numHosts, EMPTY, steps).tasks[g].role == Origin
    ensures SubmittedAt(numHosts, steps, k, g, ApplySteps(numHosts, EMPTY, steps).tasks[g], flags)
    ensures FlagsKept(numHosts, ApplySteps(numHosts, EMPTY, steps), g, flags)
    decreases |steps|
  {
    var prev, st := steps[..|steps| - 1], steps[|steps| - 1];
    assert steps == prev + [st];
    AfterLast(numHosts, prev, st);
    EmptyInv(numHosts);
    ReachableInv(numHosts, EMPTY, prev);
    var n := ApplySteps(numHosts, EMPTY, prev);
    if g in n.tasks {
      IdentityStays(numHosts, n, st, g, Apply(numHosts, n, st));
      k, flags := SubmitHistory(numHosts, prev, g);
      FlagsStill(numHosts, n, st, g, flags, Apply(numHosts, n, st));
      SubmittedStill(numHosts, prev, st, k, g, n.tasks[g], flags);
    } else {
      flags := NewOrigin(numHosts, n, st, g);
      k := |prev|;
      assert steps[..k] == prev && steps[..k + 1] == steps;
    }
  }

  /**
   * Every copy was rebuilt from the flags its original was submitted with: it is a coroutine, or
   * preemptive, exactly if the original was; it is never fire-and-forget, though the original keeps
   * that flag and is ended by it.
   */
  lemma CopyCarriesSubmittedFlags(numHosts: u32, steps: seq<Step>, h: Gid) returns (k: nat, flags: set<Flag>)
    requires h in ApplySteps(numHosts, EMPTY, steps).tasks && ApplySteps(numHosts, EMPTY, steps).tasks[h].role.Copy?
    ensures
      var n := ApplySteps(numHosts, EMPTY, steps);
      var copy := n.tasks[h];
      && copy.role.orig in n.tasks
      && SubmittedAt(numHosts, steps, k, copy.role.orig, n.tasks[copy.role.orig], flags)
      && (Coroutine in copy.flags <==> Coroutine in flags) && (Preemptive in copy.flags <==> Preemptive in flags)
      && FireAndForget !in copy.flags
      && (FireAndForget in n.tasks[copy.role.orig].flags <==> FireAndForget in flags)
  {
    EmptyInv(numHosts);
    ReachableInv(numHosts, EMPTY, steps);
    var n := ApplySteps(numHosts, EMPTY, steps);
    var g := n.tasks[h].role.orig;
    assert TaskOk(numHosts, n, h);
    ReplicaFacts(numHosts, n, g, n.tasks[h].role.replica);
    k, flags := SubmitHistory(numHosts, steps, g);
  }
}
