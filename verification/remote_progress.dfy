/** The RPC side of a push never waits for anything but the copy it has sent: exactly when it can go on. */
module RemoteProgress {
  import opened HrunTypes
  import opened RemoteModel
  import opened RemoteProofs
  import opened RemoteTheorems

  /** The steps of the push thread of `g` and of the calls it makes. */
  predicate PushStep(st: Step, g: Gid) {
    match st
    case Send(x) => x == g
    case RpcExec(x, _) => x == g
    case RpcComplete(x) => x == g
    case LoadReply(x) => x == g
    case PushEnd(x) => x == g
    case _ => false
  }

  /** The call in flight waits for a copy that its node has not completed yet. */
  predicate AwaitsCopy(n: Net, g: Gid) {
    && g in n.pushes && n.pushes[g].phase.Waiting? && n.pushes[g].next < |n.pushes[g].copies|
    && n.pushes[g].copies[n.pushes[g].next] in n.tasks
    && Complete !in n.tasks[n.pushes[g].copies[n.pushes[g].next]].flags
  }

  function PhaseRank(p: Push): nat {
    match p.phase
    case Sending => 4
    case Sent => 3
    case Waiting => 2
    case Replied(_) => 1
    case Finished => 0
  }

  /** Falls with every step of the push. */
  function Rank(p: Push): nat
    requires p.next <= |p.targets|
  {
    5 * (|p.targets| - p.next) + PhaseRank(p)
  }

  /** The next step of an unfinished push that is not waiting for its copy. */
  lemma NextPushStep(numHosts: u32, n: Net, g: Gid) returns (st: Step)
    requires g in n.pushes && g in n.tasks && PushOk(numHosts, n.tasks[g], n.pushes[g]) && LinkOk(n, g)
    requires !n.pushes[g].phase.Finished? && !AwaitsCopy(n, g)
    ensures PushStep(st, g)
    ensures
      var n' := Apply(numHosts, n, st);
      && n' != n && g in n'.pushes
      && n'.pushes[g].next <= |n'.pushes[g].targets| && Rank(n'.pushes[g]) < Rank(n.pushes[g])
  {
    var p := n.pushes[g];
    match p.phase {
      case Sending => st := if p.next < |p.targets| then Send(g) else PushEnd(g);
      case Sent =>
        var h := Unused(n.tasks.Keys);
        st := RpcExec(g, h);
      case Waiting =>
        assert p.copies[p.next] in n.tasks;
        st := RpcComplete(g);
      case Replied(_) => st := LoadReply(g);
    }
    var n' := Apply(numHosts, n, st);
    assert n'.pushes[g] != p;
  }

  /** A push that has finished, or waits for its copy, can do nothing. */
  lemma NoPushStep(numHosts: u32, n: Net, g: Gid, st: Step)
    requires g in n.pushes && g in n.tasks && PushOk(numHosts, n.tasks[g], n.pushes[g])
    requires n.pushes[g].phase.Finished? || AwaitsCopy(n, g)
    requires PushStep(st, g)
    ensures Apply(numHosts, n, st) == n
  {}

  ghost predicate CanPush(numHosts: u32, n: Net, g: Gid) {
    exists st :: PushStep(st, g) && Apply(numHosts, n, st) != n
  }

  /**
   * In every reachable state the push of a dispersed task has an enabled step if and only if it is
   * neither finished nor waiting for a copy that the destination has not completed.
   */
  lemma PushBlockedExactly(numHosts: u32, steps: seq<Step>, g: Gid)
    requires g in ApplySteps(numHosts, EMPTY, steps).pushes
    ensures
      var n := ApplySteps(numHosts, EMPTY, steps);
      CanPush(numHosts, n, g) <==> !n.pushes[g].phase.Finished? && !AwaitsCopy(n, g)
  {
    EmptyInv(numHosts);
    ReachableInv(numHosts, EMPTY, steps);
    var n := ApplySteps(numHosts, EMPTY, steps);
    assert g in n.tasks && PushOk(numHosts, n.tasks[g], n.pushes[g]) && LinkOk(n, g);
    if n.pushes[g].phase.Finished? || AwaitsCopy(n, g) {
      forall st | PushStep(st, g) ensures Apply(numHosts, n, st) == n {
        NoPushStep(numHosts, n, g, st);
      }
    } else {
      var st := NextPushStep(numHosts, n, g);
    }
  }

  lemma {:induction false} PushOn(numHosts: u32, n: Net, g: Gid, bound: nat) returns (more: seq<Step>)
    requires Inv(numHosts, n) && g in n.pushes
    requires n.pushes[g].next <= |n.pushes[g].targets| && Rank(n.pushes[g]) <= bound
    ensures forall i | 0 <= i < |more| :: PushStep(more[i], g)
    ensures
      var n' := ApplySteps(numHosts, n, more);
      g in n'.pushes && (n'.pushes[g].phase.Finished? || AwaitsCopy(n', g))
    decreases bound
  {
    if n.pushes[g].phase.Finished? || AwaitsCopy(n, g) {
      more := [];
    } else {
      assert g in n.tasks && PushOk(numHosts, n.tasks[g], n.pushes[g]) && LinkOk(n, g);
      var st := NextPushStep(numHosts, n, g);
      var n1 := Apply(numHosts, n, st);
      StepInv(numHosts, n, st, n1);
      var rest := PushOn(numHosts, n1, g, bound - 1);
      more := [st] + rest;
      assert more[1..] == rest;
    }
  }

  lemma {:induction false} StepsThenMore(numHosts: u32, n: Net, a: seq<Step>, b: seq<Step>)
    ensures ApplySteps(numHosts, n, a + b) == ApplySteps(numHosts, ApplySteps(numHosts, n, a), b)
    decreases a
  {
    if a == [] {
      assert a + b == b;
    } else {
      var ab, n1 := a + b, Apply(numHosts, n, a[0]);
      assert ab[0] == a[0] && ab[1..] == a[1..] + b;
      StepsThenMore(numHosts, n1, a[1..], b);
      assert ApplySteps(numHosts, n, ab) == ApplySteps(numHosts, n1, ab[1..]);
      assert ApplySteps(numHosts, n, a) == ApplySteps(numHosts, n1, a[1..]);
    }
  }

  /**
   * From every reachable state the push, by steps of its own alone, comes to its end or to waiting for
   * one copy. Whether that copy is ever completed is up to the worker of its node.
   */
  lemma PushRunsUntilItsCopy(numHosts: u32, steps: seq<Step>, g: Gid) returns (more: seq<Step>)
    requires g in ApplySteps(numHosts, EMPTY, steps).pushes
    ensures forall i | 0 <= i < |more| :: PushStep(more[i], g)
    ensures
      var n' := ApplySteps(numHosts, EMPTY, steps + more);
      g in n'.pushes && (n'.pushes[g].phase.Finished? || AwaitsCopy(n', g))
  {
    EmptyInv(numHosts);
    ReachableInv(numHosts, EMPTY, steps);
    var n := ApplySteps(numHosts, EMPTY, steps);
    assert PushOk(numHosts, n.tasks[g], n.pushes[g]);
    more := PushOn(numHosts, n, g, Rank(n.pushes[g]));
    StepsThenMore(numHosts, EMPTY, steps, more);
  }
}
