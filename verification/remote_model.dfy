/** Remote execution across N nodes as atomic steps over tasks, push threads and calls in flight. */
module RemoteModel {
  import opened HrunTypes

  type Gid = nat

  /** A task submitted at its node, or the copy made there for replica `replica` of `orig`. */
  datatype Role = Origin | Copy(orig: Gid, replica: nat)

  /**
   * `over`: its lane entry is complete. `busy`: its worker is between Disperse and DisableRun.
   * `ret`: the result slots. `replicates`: one slot per target, otherwise one slot in all.
   * `dels`: how often it was deleted.
   */
  datatype NetTask = NetTask(
    node: u32, domain: DomainId, flags: set<Flag>, role: Role, over: bool, busy: bool,
    replicates: bool, ret: seq<int>, dels: nat)

  datatype Phase = Sending | Sent | Waiting | Replied(value: int) | Finished

  /** The push task of a dispersed task: its targets, the serialised flags, and how far it got. */
  datatype Push = Push(targets: seq<u32>, wire: set<Flag>, next: nat, phase: Phase, copies: seq<Gid>)

  /** History: `runs` counts first entries per (origin, replica, node), `dispersals` per origin. */
  datatype Net = Net(
    tasks: map<Gid, NetTask>,
    pushes: map<Gid, Push>,
    runs: multiset<(Gid, nat, u32)>,
    dispersals: multiset<Gid>,
    fault: bool)

  /** Node ids are 1..numHosts. */
  function Hosts(numHosts: u32): (hosts: seq<u32>)
    ensures |hosts| == numHosts
    ensures forall i | 0 <= i < numHosts :: hosts[i] == i + 1
  {
    if numHosts == 0 then [] else Hosts(numHosts - 1) + [numHosts]
  }

  function Resolve(d: DomainId, numHosts: u32): seq<u32> {
    if d.IsGlobal() then Hosts(numHosts) else if d.IsNode() then [d.id] else []
  }

  /** ResolveDomainId, which builds its vector host by host. */
  method ResolveDomainId(d: DomainId, hosts: seq<u32>, ghost numHosts: u32) returns (ids: seq<DomainId>)
    ensures hosts == Hosts(numHosts) ==>
              |ids| == |Resolve(d, numHosts)| && forall i | 0 <= i < |ids| :: ids[i].id == Resolve(d, numHosts)[i]
    ensures d.IsGlobal() ==> |ids| == |hosts| && forall i | 0 <= i < |hosts| :: ids[i] == NodeDomain(hosts[i])
    ensures !d.IsGlobal() ==> ids == if d.IsNode() then [d] else []
  {
    ids := [];
    if d.IsGlobal() {
      for i := 0 to |hosts|
        invariant |ids| == i && forall j | 0 <= j < i :: ids[j] == NodeDomain(hosts[j])
      {
        ids := ids + [NodeDomain(hosts[i])];
      }
    } else if d.IsNode() {
      ids := [d];
    }
  }

  /** What RpcExec clears on the rebuilt task before it is emplaced. */
  function CopyFlags(wire: set<Flag>): set<Flag> {
    wire - {FireAndForget} - {HasStarted} - {Marked} - {DataOwner} - LONG_RUNNING_MASK
  }

  predicate Entered(t: NetTask) {
    HasStarted in t.flags || DisableRun in t.flags
  }

  /** The (origin, replica, node) under which a first entry is counted. */
  function RunKey(g: Gid, t: NetTask): (Gid, nat, u32) {
    match t.role
    case Origin => (g, 0, t.node)
    case Copy(orig, replica) => (orig, replica, t.node)
  }

  /** Resize to `count` slots, new slots arbitrary (0 here). */
  function Resize(ret: seq<int>, count: nat): (r: seq<int>)
    ensures |r| == count
  {
    if count <= |ret| then ret[..count] else ret + seq(count - |ret|, _ => 0)
  }

  datatype Step =
    | Submit(g: Gid, node: u32, domain: DomainId, flags: set<Flag>, replicates: bool)
    | Disperse(g: Gid)
    | Settle(g: Gid)
    | Run(g: Gid, done: bool, value: int)
    | ThreadDone(g: Gid, value: int)
    | End(g: Gid)
    | OwnerDelete(g: Gid)
    | Send(g: Gid)
    | RpcExec(g: Gid, copy: Gid)
    | RpcComplete(g: Gid)
    | LoadReply(g: Gid)
    | PushEnd(g: Gid)

  /** Can the worker of its node look at this task now? */
  predicate Pollable(n: Net, g: Gid) {
    g in n.tasks && !n.tasks[g].over && !n.tasks[g].busy
  }

  predicate IsThreaded(t: NetTask) {
    Preemptive in t.flags && Coroutine !in t.flags
  }

  /** Write the single result of a run: the local side always uses replica 0. */
  function WriteRet(t: NetTask, value: int): NetTask {
    if |t.ret| > 0 then t.(ret := t.ret[0 := value]) else t
  }

  function Apply(numHosts: u32, n: Net, st: Step): Net {
    match st
    case Submit(g, node, domain, flags, replicates) =>
      if g !in n.tasks && 1 <= node <= numHosts
         && flags !! {Complete, ModuleComplete, DisableRun}
         && (!domain.IsRemote(numHosts, node) ==> HasStarted !in flags)
         && (domain.IsNode() && !domain.IsGlobal() ==> 1 <= domain.id <= numHosts)
      then n.(tasks := n.tasks[g := NetTask(node, domain, flags, Origin, false, false, replicates, [0], 0)])
      else n

    case Disperse(g) =>
      if Pollable(n, g) && DisableRun !in n.tasks[g].flags
         && n.tasks[g].domain.IsRemote(numHosts, n.tasks[g].node)
      then
        var t := n.tasks[g];
        var targets := Resolve(t.domain, numHosts);
        n.(tasks := n.tasks[g := t.(busy := true, ret := if t.replicates then Resize(t.ret, |targets|) else t.ret)],
           pushes := n.pushes[g := Push(targets, t.flags, 0, Sending, [])],
           dispersals := n.dispersals + multiset{g},
           fault := n.fault || t.dels > 0)
      else n

    case Settle(g) =>
      if g in n.tasks && n.tasks[g].busy
      then n.(tasks := n.tasks[g := n.tasks[g].(busy := false, flags := n.tasks[g].flags + {DisableRun} - {Coroutine})],
              fault := n.fault || n.tasks[g].dels > 0)
      else n

    case Run(g, done, value) =>
      if Pollable(n, g) && DisableRun !in n.tasks[g].flags && ModuleComplete !in n.tasks[g].flags
         && !n.tasks[g].domain.IsRemote(numHosts, n.tasks[g].node)
      then
        var t := n.tasks[g];
        var t' := if IsThreaded(t) then t.(flags := t.flags + {DisableRun})
                  else if done then WriteRet(t.(flags := t.flags + {HasStarted, ModuleComplete}), value)
                  else t.(flags := t.flags + {HasStarted});
        n.(tasks := n.tasks[g := t'],
           runs := if Entered(t) then n.runs else n.runs + multiset{RunKey(g, t)},
           fault := n.fault || t.dels > 0)
      else n

    case ThreadDone(g, value) =>
      if g in n.tasks && !n.tasks[g].over && DisableRun in n.tasks[g].flags && IsThreaded(n.tasks[g])
         && ModuleComplete !in n.tasks[g].flags && !n.tasks[g].domain.IsRemote(numHosts, n.tasks[g].node)
      then n.(tasks := n.tasks[g := WriteRet(n.tasks[g].(flags := n.tasks[g].flags + {ModuleComplete}), value)],
              fault := n.fault || n.tasks[g].dels > 0)
      else n

    case End(g) =>
      if Pollable(n, g) && ModuleComplete in n.tasks[g].flags
      then
        var t := n.tasks[g];
        n.(tasks := n.tasks[g := if FireAndForget in t.flags then t.(over := true, dels := t.dels + 1)
                                 else t.(over := true, flags := t.flags + {ModuleComplete, Complete})],
           fault := n.fault || t.dels > 0)
      else n

    case OwnerDelete(g) =>
      if g in n.tasks && n.tasks[g].role == Origin && Complete in n.tasks[g].flags && n.tasks[g].dels == 0
      then n.(tasks := n.tasks[g := n.tasks[g].(dels := 1)])
      else n

    case Send(g) =>
      if g in n.pushes && n.pushes[g].phase == Sending && n.pushes[g].next < |n.pushes[g].targets|
      then n.(pushes := n.pushes[g := n.pushes[g].(phase := Sent)])
      else n

    case RpcExec(g, h) =>
      if g in n.pushes && g in n.tasks && h !in n.tasks
         && n.pushes[g].phase == Sent && n.pushes[g].next < |n.pushes[g].targets|
      then
        var p := n.pushes[g];
        var node := p.targets[p.next];
        n.(tasks := n.tasks[h := NetTask(node, NodeDomain(node), CopyFlags(p.wire), Copy(g, p.next), false, false,
                                         n.tasks[g].replicates, [0], 0)],
           pushes := n.pushes[g := p.(phase := Waiting, copies := p.copies + [h])])
      else n

    case RpcComplete(g) =>
      if g in n.pushes && n.pushes[g].phase == Waiting && n.pushes[g].copies != []
      then
        var p := n.pushes[g];
        var h := p.copies[|p.copies| - 1];
        if h in n.tasks && Complete in n.tasks[h].flags then
          var t := n.tasks[h];
          n.(tasks := n.tasks[h := t.(dels := t.dels + 1)],
             pushes := n.pushes[g := p.(phase := Replied(if |t.ret| > 0 then t.ret[0] else 0))],
             fault := n.fault || t.dels > 0)
        else n
      else n

    case LoadReply(g) =>
      if g in n.pushes && g in n.tasks && n.pushes[g].phase.Replied?
      then
        var p := n.pushes[g];
        var t := n.tasks[g];
        var slot := if t.replicates then p.next else 0;
        n.(tasks := n.tasks[g := if slot < |t.ret| then t.(ret := t.ret[slot := p.phase.value]) else t],
           pushes := n.pushes[g := p.(phase := Sending, next := p.next + 1)],
           fault := n.fault || t.dels > 0 || slot >= |t.ret|)
      else n

    case PushEnd(g) =>
      if g in n.pushes && g in n.tasks && n.pushes[g].phase == Sending && n.pushes[g].next >= |n.pushes[g].targets|
      then n.(tasks := n.tasks[g := n.tasks[g].(flags := n.tasks[g].flags + {ModuleComplete})],
              pushes := n.pushes[g := n.pushes[g].(phase := Finished)],
              fault := n.fault || n.tasks[g].dels > 0)
      else n
  }

  function ApplySteps(numHosts: u32, n: Net, steps: seq<Step>): Net
    decreases steps
  {
    if steps == [] then n else ApplySteps(numHosts, Apply(numHosts, n, steps[0]), steps[1..])
  }

  const EMPTY := Net(map[], map[], multiset{}, multiset{}, false)
}
