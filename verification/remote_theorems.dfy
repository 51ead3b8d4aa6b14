/** The guarantees of remote execution, for every run on any number of nodes. */
module RemoteTheorems {
  import opened HrunTypes
  import opened RemoteModel
  import opened RemoteProofs
  import WorkerModel

  lemma TargetsDistinct(d: DomainId, numHosts: u32)
    ensures
      var targets := Resolve(d, numHosts);
      forall i, j | 0 <= i < j < |targets| :: targets[i] != targets[j]
  {}

  /**
   * A task that must leave its node is dispersed at most once; each replica is let in at most once and
   * only at its own target; and once the original is module-complete it was dispersed, and every
   * resolved node ran it exactly once, the origin included when the domain is global.
   */
  lemma ExactlyOncePerNode(numHosts: u32, steps: seq<Step>, g: Gid)
    requires
      var n := ApplySteps(numHosts, EMPTY, steps);
      g in n.tasks && n.tasks[g].role == Origin && Away(numHosts, n.tasks[g])
    ensures
      var n := ApplySteps(numHosts, EMPTY, steps);
      var t := n.tasks[g];
      var targets := Resolve(t.domain, numHosts);
      && !n.fault
      && n.dispersals[g] <= 1
      && (forall r: nat, m: u32 :: n.runs[(g, r, m)] <= 1)
      && (forall r: nat, m: u32 :: n.runs[(g, r, m)] == 1 ==> r < |targets| && targets[r] == m)
      && (forall i, j | 0 <= i < j < |targets| :: targets[i] != targets[j])
      && (t.domain.IsGlobal() ==> t.node in targets)
      && (ModuleComplete in t.flags ==>
            && n.dispersals[g] == 1
            && forall r: nat, m: u32 :: n.runs[(g, r, m)] == (if r < |targets| && targets[r] == m then 1 else 0))
  {
    EmptyInv(numHosts);
    ReachableInv(numHosts, EMPTY, steps);
    var n := ApplySteps(numHosts, EMPTY, steps);
    var t := n.tasks[g];
    var targets := Resolve(t.domain, numHosts);
    assert TaskOk(numHosts, n, g);
    TargetsDistinct(t.domain, numHosts);
    if t.domain.IsGlobal() {
      assert targets[t.node - 1] == t.node;
    }
    forall r: nat, m: u32
      ensures n.runs[(g, r, m)] <= 1
      ensures n.runs[(g, r, m)] == 1 ==> r < |targets| && targets[r] == m
      ensures ModuleComplete in t.flags ==> n.runs[(g, r, m)] == (if r < |targets| && targets[r] == m then 1 else 0)
    {
      assert n.runs[(g, r, m)] == (if Happened(numHosts, n, g, r, m) then 1 else 0);
      if g in n.pushes && r < |n.pushes[g].copies| {
        ReplicaFacts(numHosts, n, g, r);
      }
    }
  }

  lemma ReplicaFacts(numHosts: u32, n: Net, g: Gid, r: nat)
    requires Inv(numHosts, n) && g in n.pushes && r < |n.pushes[g].copies|
    ensures
      var p := n.pushes[g];
      && g in n.tasks && PushOk(numHosts, n.tasks[g], p) && r <= p.next
      && p.copies[r] in n.tasks && ReplicaOk(n.tasks[g], p, g, r, n.tasks[p.copies[r]])
      && CopyOk(numHosts, n.tasks[p.copies[r]])
  {
    assert LinkOk(n, g);
    assert TaskOk(numHosts, n, n.pushes[g].copies[r]);
  }

  /**
   * The original becomes module-complete only after the output of every replica was loaded. A task
   * with replica slots then has one slot per target, and slot r holds what the r-th resolved node
   * produced, although every remote side wrote its replica 0; a task with one slot holds the last one.
   */
  lemma CompleteMeansAllOutputsLoaded(numHosts: u32, steps: seq<Step>, g: Gid)
    requires
      var n := ApplySteps(numHosts, EMPTY, steps);
      g in n.tasks && n.tasks[g].role == Origin && Away(numHosts, n.tasks[g]) && ModuleComplete in n.tasks[g].flags
    ensures
      var n := ApplySteps(numHosts, EMPTY, steps);
      var t := n.tasks[g];
      var targets := Resolve(t.domain, numHosts);
      && g in n.pushes && n.pushes[g].phase == Finished && |n.pushes[g].copies| == |targets|
      && |t.ret| == (if t.replicates then |targets| else 1)
      && (forall r | 0 <= r < |targets| ::
            && n.pushes[g].copies[r] in n.tasks
            && var copy := n.tasks[n.pushes[g].copies[r]];
               && copy.role == Copy(g, r) && copy.node == targets[r] && copy.over && |copy.ret| == 1
               && (t.replicates ==> t.ret[r] == copy.ret[0])
               && (!t.replicates && r == |targets| - 1 ==> t.ret[0] == copy.ret[0]))
  {
    EmptyInv(numHosts);
    ReachableInv(numHosts, EMPTY, steps);
    var n := ApplySteps(numHosts, EMPTY, steps);
    assert TaskOk(numHosts, n, g);
    assert PushOk(numHosts, n.tasks[g], n.pushes[g]);
    forall r | 0 <= r < |n.pushes[g].copies|
      ensures n.pushes[g].copies[r] in n.tasks
              && ReplicaOk(n.tasks[g], n.pushes[g], g, r, n.tasks[n.pushes[g].copies[r]])
    {
      ReplicaFacts(numHosts, n, g, r);
    }
  }

  /**
   * A remote copy stays home, is never dispersed again, is never deleted by its worker (whatever
   * flags the original carried, fire-and-forget included), is allocated until its outputs are
   * serialised, and is deleted at most once. A coroutine flag travels to the copy and leaves the origin.
   */
  lemma CopyLifetime(numHosts: u32, steps: seq<Step>, h: Gid)
    requires
      var n := ApplySteps(numHosts, EMPTY, steps);
      h in n.tasks && n.tasks[h].role.Copy?
    ensures
      var n := ApplySteps(numHosts, EMPTY, steps);
      var t := n.tasks[h];
      && !Away(numHosts, t) && h !in n.pushes && n.dispersals[h] == 0
      && FireAndForget !in t.flags
      && t.dels <= 1 && (!t.over ==> t.dels == 0) && (t.dels == 1 ==> Complete in t.flags)
      && t.role.orig in n.pushes
      && var p := n.pushes[t.role.orig];
         && (t.role.replica == p.next && p.phase == Waiting ==> t.dels == 0)
         && (t.dels == 0 ==> t.role.replica == p.next && p.phase == Waiting)
         && (Coroutine in t.flags <==> Coroutine in p.wire)
         && t.role.orig in n.tasks
         && (!n.tasks[t.role.orig].busy ==> Coroutine !in n.tasks[t.role.orig].flags)
  {
    EmptyInv(numHosts);
    ReachableInv(numHosts, EMPTY, steps);
    var n := ApplySteps(numHosts, EMPTY, steps);
    assert TaskOk(numHosts, n, h);
    CopiesStayHome(numHosts, n, h);
    ReplicaFacts(numHosts, n, n.tasks[h].role.orig, n.tasks[h].role.replica);
    assert TaskOk(numHosts, n, n.tasks[h].role.orig);
  }

  /** A task that may run where it was submitted is let in there, once, and nowhere else. */
  lemma LocalTaskRunsOnceAtHome(numHosts: u32, steps: seq<Step>, g: Gid)
    requires
      var n := ApplySteps(numHosts, EMPTY, steps);
      g in n.tasks && n.tasks[g].role == Origin && !Away(numHosts, n.tasks[g])
    ensures
      var n := ApplySteps(numHosts, EMPTY, steps);
      && n.dispersals[g] == 0
      && (forall r: nat, m: u32 :: n.runs[(g, r, m)] <= 1)
      && (forall r: nat, m: u32 :: n.runs[(g, r, m)] == 1 ==> r == 0 && m == n.tasks[g].node)
      && (ModuleComplete in n.tasks[g].flags ==> n.runs[(g, 0, n.tasks[g].node)] == 1)
  {
    EmptyInv(numHosts);
    ReachableInv(numHosts, EMPTY, steps);
    var n := ApplySteps(numHosts, EMPTY, steps);
    assert TaskOk(numHosts, n, g);
    assert forall r: nat, m: u32 :: n.runs[(g, r, m)] == (if Happened(numHosts, n, g, r, m) then 1 else 0);
  }

  /** A domain that names a node set resolves to nothing: the task is completed without ever running. */
  lemma SetDomainNeverRuns(numHosts: u32, steps: seq<Step>, g: Gid)
    requires numHosts > 1
    requires
      var n := ApplySteps(numHosts, EMPTY, steps);
      g in n.tasks && n.tasks[g].role == Origin
      && KSet in n.tasks[g].domain.flags && !n.tasks[g].domain.IsGlobal() && !n.tasks[g].domain.IsNode()
    ensures forall r: nat, m: u32 :: ApplySteps(numHosts, EMPTY, steps).runs[(g, r, m)] == 0
  {
    ExactlyOncePerNode(numHosts, steps, g);
  }

  lemma CopyFlagsFresh(wire: set<Flag>)
    requires wire !! {Complete, ModuleComplete, DisableRun}
    ensures CopyFlags(wire) !! PROGRESS_FLAGS
    ensures CopyFlags(wire) !! {FireAndForget, Marked, DataOwner, LongRunning, Unordered}
    ensures forall f | f in {Coroutine, Preemptive} :: f in CopyFlags(wire) <==> f in wire
  {}

  /** To the worker of its node this is a local task seen for the first time, not unordered by flag. */
  ghost predicate FreshAtItsWorker(numHosts: u32, copy: NetTask) {
    forall t: WorkerModel.Task, exclusive: bool
      | t.flags == copy.flags && t.domain == copy.domain && !t.hasStack ::
      && WorkerModel.Fresh(t) && Unordered !in t.flags
      && !WorkerModel.Remote(WorkerModel.Config(numHosts, copy.node, exclusive), t)
  }

  lemma RebuiltIsFresh(numHosts: u32, n: Net, g: Gid, h: Gid, n': Net)
    requires g in n.pushes && n.pushes[g].wire !! {Complete, ModuleComplete, DisableRun}
    requires n' == Apply(numHosts, n, RpcExec(g, h)) && h !in n.tasks && h in n'.tasks
    ensures g in n'.pushes && n'.pushes[g].wire == n.pushes[g].wire && FreshAtItsWorker(numHosts, n'.tasks[h])
    ensures forall f | f in {Coroutine, Preemptive} :: f in n'.tasks[h].flags <==> f in n.pushes[g].wire
  {
    var p, copy := n.pushes[g], n'.tasks[h];
    CopyFlagsFresh(p.wire);
    assert copy.flags == CopyFlags(p.wire) && copy.domain == NodeDomain(copy.node);
    forall t: WorkerModel.Task, exclusive: bool | t.flags == copy.flags && t.domain == copy.domain && !t.hasStack
      ensures WorkerModel.Fresh(t) && Unordered !in t.flags
      ensures !WorkerModel.Remote(WorkerModel.Config(numHosts, copy.node, exclusive), t)
    {
      assert t.flags !! {FireAndForget, Marked, DataOwner, LongRunning, Unordered};
    }
  }

  /**
   * In every run, whatever flags the original carried, the copy an RPC rebuilds is to its worker a task
   * seen for the first time. So what holds of every task emplaced in a worker's lane holds of it: if the
   * original was a coroutine, so is the copy, and its one stack is made and freed there.
   */
  lemma CopyEntersItsWorkerFresh(numHosts: u32, steps: seq<Step>, g: Gid, h: Gid, n': Net)
    requires
      var n := ApplySteps(numHosts, EMPTY, steps);
      n' == Apply(numHosts, n, RpcExec(g, h)) && h !in n.tasks && h in n'.tasks
    ensures g in n'.pushes && FreshAtItsWorker(numHosts, n'.tasks[h])
    ensures forall f | f in {Coroutine, Preemptive} :: f in n'.tasks[h].flags <==> f in n'.pushes[g].wire
  {
    EmptyInv(numHosts);
    ReachableInv(numHosts, EMPTY, steps);
    var n := ApplySteps(numHosts, EMPTY, steps);
    WiresOk(numHosts, n);
    RebuiltIsFresh(numHosts, n, g, h, n');
  }

  lemma WiresOk(numHosts: u32, n: Net)
    requires PushesOk(numHosts, n)
    ensures forall g | g in n.pushes :: n.pushes[g].wire !! {Complete, ModuleComplete, DisableRun}
  {
    forall g | g in n.pushes ensures n.pushes[g].wire !! {Complete, ModuleComplete, DisableRun} {
      assert PushOk(numHosts, n.tasks[g], n.pushes[g]);
    }
  }
}
