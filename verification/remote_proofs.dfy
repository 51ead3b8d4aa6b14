/** What holds of every run of the remote execution protocol. */
module RemoteProofs {
  import opened HrunTypes
  import opened RemoteModel

  predicate Away(numHosts: u32, t: NetTask) {
    t.domain.IsRemote(numHosts, t.node)
  }

  ghost predicate OriginOk(numHosts: u32, t: NetTask, pushed: bool) {
    && 1 <= t.node <= numHosts
    && (Complete in t.flags ==> t.over) && (t.over ==> ModuleComplete in t.flags && !t.busy)
    && t.dels <= 1 && (!t.over ==> t.dels == 0)
    && (t.over && FireAndForget in t.flags ==> t.dels == 1 && Complete !in t.flags)
    && (t.over && FireAndForget !in t.flags ==> Complete in t.flags)
    && (t.domain.IsNode() && !t.domain.IsGlobal() ==> 1 <= t.domain.id <= numHosts)
    && (if Away(numHosts, t) then
          && (pushed <==> t.busy || DisableRun in t.flags)
          && (pushed && !t.busy ==> Coroutine !in t.flags)
          && (!pushed ==> ModuleComplete !in t.flags && t.ret == [0])
        else
          && !pushed && !t.busy && |t.ret| == 1 && (ModuleComplete in t.flags ==> Entered(t)))
  }

  ghost predicate CopyOk(numHosts: u32, t: NetTask) {
    && 1 <= t.node <= numHosts && t.domain == NodeDomain(t.node)
    && !t.busy && FireAndForget !in t.flags && |t.ret| == 1
    && (Complete in t.flags <==> t.over)
    && (t.over ==> ModuleComplete in t.flags) && (ModuleComplete in t.flags ==> Entered(t))
    && (!t.over ==> t.dels == 0)
    && (DisableRun in t.flags ==> IsThreaded(t))
  }

  ghost predicate TaskOk(numHosts: u32, n: Net, h: Gid)
    requires h in n.tasks
  {
    match n.tasks[h].role
    case Origin => OriginOk(numHosts, n.tasks[h], h in n.pushes)
    case Copy(g, r) =>
      && CopyOk(numHosts, n.tasks[h])
      && h !in n.pushes && g in n.pushes && r < |n.pushes[g].copies| && n.pushes[g].copies[r] == h
  }

  ghost predicate PushOk(numHosts: u32, t: NetTask, p: Push) {
    && t.role == Origin && Away(numHosts, t) && p.targets == Resolve(t.domain, numHosts)
    && p.wire !! {Complete, ModuleComplete, DisableRun}
    && p.next <= |p.targets|
    && (p.phase.Sent? || p.phase.Waiting? || p.phase.Replied? ==> p.next < |p.targets|)
    && |p.copies| == p.next + (if p.phase.Waiting? || p.phase.Replied? then 1 else 0)
    && (p.phase.Finished? ==> p.next == |p.targets|)
    && (ModuleComplete in t.flags <==> p.phase.Finished?)
    && |t.ret| == (if t.replicates then |p.targets| else 1)
  }

  /** Copy `h` of replica `r`, as far as the push of its origin knows it. */
  ghost predicate ReplicaOk(t: NetTask, p: Push, g: Gid, r: nat, h: NetTask)
    requires r < |p.copies|
  {
    && h.role == Copy(g, r) && r < |p.targets| && h.node == p.targets[r] && |h.ret| == 1
    && (Coroutine in h.flags <==> Coroutine in p.wire) && (Preemptive in h.flags <==> Preemptive in p.wire)
    && (r < p.next ==>
          && h.over && h.dels == 1
          && (t.replicates ==> r < |t.ret| && t.ret[r] == h.ret[0])
          && (!t.replicates && r == p.next - 1 ==> |t.ret| == 1 && t.ret[0] == h.ret[0]))
    && (r == p.next && p.phase.Waiting? ==> h.dels == 0)
    && (r == p.next && p.phase.Replied? ==> h.over && h.dels == 1 && p.phase.value == h.ret[0])
  }

  ghost predicate LinkOk(n: Net, g: Gid)
    requires g in n.pushes && g in n.tasks
  {
    forall r | 0 <= r < |n.pushes[g].copies| ::
      n.pushes[g].copies[r] in n.tasks && ReplicaOk(n.tasks[g], n.pushes[g], g, r, n.tasks[n.pushes[g].copies[r]])
  }

  /** Replica `r` of `g` was let in at node `m`. */
  ghost predicate Happened(numHosts: u32, n: Net, g: Gid, r: nat, m: u32) {
    && g in n.tasks && n.tasks[g].role == Origin
    && if Away(numHosts, n.tasks[g]) then
         && g in n.pushes && r < |n.pushes[g].copies| && n.pushes[g].copies[r] in n.tasks
         && n.tasks[n.pushes[g].copies[r]].node == m && Entered(n.tasks[n.pushes[g].copies[r]])
       else
         r == 0 && m == n.tasks[g].node && Entered(n.tasks[g])
  }

  ghost predicate TasksOk(numHosts: u32, n: Net) {
    forall h | h in n.tasks :: TaskOk(numHosts, n, h)
  }

  ghost predicate PushesOk(numHosts: u32, n: Net) {
    forall g | g in n.pushes :: g in n.tasks && PushOk(numHosts, n.tasks[g], n.pushes[g]) && LinkOk(n, g)
  }

  ghost predicate RunsOk(numHosts: u32, n: Net) {
    forall g: Gid, r: nat, m: u32 :: n.runs[(g, r, m)] == (if Happened(numHosts, n, g, r, m) then 1 else 0)
  }

  ghost predicate DispersalsOk(n: Net) {
    forall g :: n.dispersals[g] == (if g in n.pushes then 1 else 0)
  }

  ghost predicate Inv(numHosts: u32, n: Net) {
    TasksOk(numHosts, n) && PushesOk(numHosts, n) && RunsOk(numHosts, n) && DispersalsOk(n) && !n.fault
  }

  // ---------------------------------------------------------------- frames

  /** `n'` differs from `n` at most at origin `g`, its push, and one copy `a` of it (or `a == g`). */
  ghost predicate Near(n: Net, n': Net, g: Gid, a: Gid) {
    && n.tasks.Keys <= n'.tasks.Keys
    && (forall h | h in n'.tasks && h != g && h != a :: h in n.tasks && n'.tasks[h] == n.tasks[h])
    && (forall q | q != g :: (q in n'.pushes <==> q in n.pushes) && (q in n.pushes ==> n'.pushes[q] == n.pushes[q]))
    && (g in n.pushes ==> g in n'.pushes && n.pushes[g].copies <= n'.pushes[g].copies)
    && (g in n'.tasks ==> n'.tasks[g].role == Origin)
    && (a in n'.tasks && a != g ==> n'.tasks[a].role.Copy? && n'.tasks[a].role.orig == g)
    && (a in n.tasks ==> n.tasks[a].role == n'.tasks[a].role) && (g in n.tasks ==> n.tasks[g].role == Origin)
  }

  lemma OtherTaskOk(numHosts: u32, n: Net, n': Net, g: Gid, a: Gid, h: Gid)
    requires Near(n, n', g, a) && h in n'.tasks && h != g && h != a
    requires h in n.tasks && TaskOk(numHosts, n, h)
    ensures TaskOk(numHosts, n', h)
  {}

  lemma OtherPushOk(numHosts: u32, n: Net, n': Net, g: Gid, a: Gid, q: Gid)
    requires Near(n, n', g, a) && q in n.pushes && q != g
    requires q in n.tasks && PushOk(numHosts, n.tasks[q], n.pushes[q]) && LinkOk(n, q)
    ensures q in n'.tasks && PushOk(numHosts, n'.tasks[q], n'.pushes[q]) && LinkOk(n', q)
  {
    assert q != a;
    forall r | 0 <= r < |n'.pushes[q].copies|
      ensures n'.pushes[q].copies[r] in n'.tasks
              && ReplicaOk(n'.tasks[q], n'.pushes[q], q, r, n'.tasks[n'.pushes[q].copies[r]])
    {
      assert ReplicaOk(n.tasks[q], n.pushes[q], q, r, n.tasks[n.pushes[q].copies[r]]);
    }
  }

  lemma OthersOk(numHosts: u32, n: Net, n': Net, g: Gid, a: Gid)
    requires TasksOk(numHosts, n) && PushesOk(numHosts, n) && Near(n, n', g, a)
    requires g in n'.tasks ==> TaskOk(numHosts, n', g)
    requires a in n'.tasks ==> TaskOk(numHosts, n', a)
    requires g in n'.pushes ==> g in n'.tasks && PushOk(numHosts, n'.tasks[g], n'.pushes[g]) && LinkOk(n', g)
    ensures TasksOk(numHosts, n') && PushesOk(numHosts, n')
  {
    forall h | h in n'.tasks ensures TaskOk(numHosts, n', h) {
      if h != g && h != a { OtherTaskOk(numHosts, n, n', g, a, h); }
    }
    forall q | q in n'.pushes ensures q in n'.tasks && PushOk(numHosts, n'.tasks[q], n'.pushes[q]) && LinkOk(n', q) {
      if q != g { OtherPushOk(numHosts, n, n', g, a, q); }
    }
  }

  lemma OthersHappened(numHosts: u32, n: Net, n': Net, g: Gid, a: Gid, q: Gid, r: nat, m: u32)
    requires TasksOk(numHosts, n) && PushesOk(numHosts, n) && Near(n, n', g, a) && q != g
    ensures Happened(numHosts, n', q, r, m) == Happened(numHosts, n, q, r, m)
  {
    if q in n.pushes && r < |n.pushes[q].copies| {
      assert LinkOk(n, q);
      assert ReplicaOk(n.tasks[q], n.pushes[q], q, r, n.tasks[n.pushes[q].copies[r]]);
    }
  }

  /** No first entry in this step. */
  lemma SameRuns(numHosts: u32, n: Net, n': Net, g: Gid, a: Gid)
    requires Inv(numHosts, n) && Near(n, n', g, a) && n'.runs == n.runs
    requires forall r: nat, m: u32 :: Happened(numHosts, n', g, r, m) == Happened(numHosts, n, g, r, m)
    ensures RunsOk(numHosts, n')
  {
    forall q: Gid, r: nat, m: u32 ensures n'.runs[(q, r, m)] == (if Happened(numHosts, n', q, r, m) then 1 else 0) {
      if q != g { OthersHappened(numHosts, n, n', g, a, q, r, m); }
    }
  }

  // ---------------------------------------------------------------- steps of the origin's worker and owner

  lemma SubmitInv(numHosts: u32, n: Net, st: Step, n': Net)
    requires Inv(numHosts, n) && st.Submit? && n' == Apply(numHosts, n, st)
    ensures Inv(numHosts, n')
  {
    if n' != n {
      OthersOk(numHosts, n, n', st.g, st.g);
      SameRuns(numHosts, n, n', st.g, st.g);
    }
  }

  lemma DisperseInv(numHosts: u32, n: Net, st: Step, n': Net)
    requires Inv(numHosts, n) && st.Disperse? && n' == Apply(numHosts, n, st)
    ensures Inv(numHosts, n')
  {
    if n' != n {
      assert TaskOk(numHosts, n, st.g);
      CopiesStayHome(numHosts, n, st.g);
      OthersOk(numHosts, n, n', st.g, st.g);
      SameRuns(numHosts, n, n', st.g, st.g);
    }
  }

  /** A copy's domain names the node it was made on, so no worker ever sends it on. */
  lemma CopiesStayHome(numHosts: u32, n: Net, h: Gid)
    requires h in n.tasks && TaskOk(numHosts, n, h)
    ensures n.tasks[h].role.Copy? ==> !Away(numHosts, n.tasks[h])
  {}

  lemma SettleInv(numHosts: u32, n: Net, st: Step, n': Net)
    requires Inv(numHosts, n) && st.Settle? && n' == Apply(numHosts, n, st)
    ensures Inv(numHosts, n')
  {
    if n' != n {
      var g := st.g;
      assert TaskOk(numHosts, n, g);
      OriginReplaced(numHosts, n, n', g);
    }
  }

  /** A dispersed origin's record changes in nothing its push depends on. */
  lemma OriginReplaced(numHosts: u32, n: Net, n': Net, g: Gid)
    requires Inv(numHosts, n) && g in n.tasks && g in n'.tasks && n.tasks[g].role == Origin && g in n.pushes
    requires n' == n.(tasks := n.tasks[g := n'.tasks[g]])
    requires
      var t, t' := n.tasks[g], n'.tasks[g];
      && t'.role == Origin && t'.node == t.node && t'.domain == t.domain
      && t'.ret == t.ret && t'.replicates == t.replicates
      && (ModuleComplete in t'.flags <==> ModuleComplete in t.flags)
      && OriginOk(numHosts, t', true)
    ensures Inv(numHosts, n')
  {
    assert LinkOk(n, g);
    assert LinkOk(n', g) by {
      forall r | 0 <= r < |n'.pushes[g].copies|
        ensures n'.pushes[g].copies[r] in n'.tasks
                && ReplicaOk(n'.tasks[g], n'.pushes[g], g, r, n'.tasks[n'.pushes[g].copies[r]])
      {
        assert ReplicaOk(n.tasks[g], n.pushes[g], g, r, n.tasks[n.pushes[g].copies[r]]);
      }
    }
    OthersOk(numHosts, n, n', g, g);
    SameRuns(numHosts, n, n', g, g);
  }

  /** A local origin has no push and no copies. */
  lemma LocalReplaced(numHosts: u32, n: Net, n': Net, g: Gid)
    requires Inv(numHosts, n) && g in n.tasks && g in n'.tasks && n.tasks[g].role == Origin && g !in n.pushes
    requires n' == n.(tasks := n.tasks[g := n'.tasks[g]], runs := n'.runs)
    requires
      var t, t' := n.tasks[g], n'.tasks[g];
      && t'.role == Origin && t'.node == t.node && t'.domain == t.domain && OriginOk(numHosts, t', false)
      && !Away(numHosts, t)
      && (Entered(t) ==> Entered(t'))
      && n'.runs == if Entered(t') && !Entered(t) then n.runs + multiset{(g, 0, t.node)} else n.runs
    ensures Inv(numHosts, n')
  {
    OthersOk(numHosts, n, n', g, g);
    forall q: Gid, r: nat, m: u32 ensures n'.runs[(q, r, m)] == (if Happened(numHosts, n', q, r, m) then 1 else 0) {
      if q != g { OthersHappened(numHosts, n, n', g, g, q, r, m); }
    }
  }

  /** A copy moves on while its origin's push waits for it. */
  lemma CopyReplaced(numHosts: u32, n: Net, n': Net, h: Gid)
    requires Inv(numHosts, n) && h in n.tasks && h in n'.tasks && n.tasks[h].role.Copy?
    requires n' == n.(tasks := n.tasks[h := n'.tasks[h]], runs := n'.runs)
    requires
      var t, t' := n.tasks[h], n'.tasks[h];
      && t'.role == t.role && t'.node == t.node && CopyOk(numHosts, t')
      && (Coroutine in t'.flags <==> Coroutine in t.flags) && (Preemptive in t'.flags <==> Preemptive in t.flags)
      && (t.over ==> t'.over && t'.ret == t.ret) && t'.dels == t.dels
      && (Entered(t) ==> Entered(t'))
      && n'.runs == if Entered(t') && !Entered(t) then n.runs + multiset{RunKey(h, t)} else n.runs
    ensures Inv(numHosts, n')
  {
    var g, i := n.tasks[h].role.orig, n.tasks[h].role.replica;
    assert TaskOk(numHosts, n, h);
    assert LinkOk(n, g) && PushOk(numHosts, n.tasks[g], n.pushes[g]);
    assert g != h;
    assert LinkOk(n', g) by {
      forall r | 0 <= r < |n'.pushes[g].copies|
        ensures n'.pushes[g].copies[r] in n'.tasks
                && ReplicaOk(n'.tasks[g], n'.pushes[g], g, r, n'.tasks[n'.pushes[g].copies[r]])
      {
        assert ReplicaOk(n.tasks[g], n.pushes[g], g, r, n.tasks[n.pushes[g].copies[r]]);
      }
    }
    assert TaskOk(numHosts, n, g);
    OthersOk(numHosts, n, n', g, h);
    CopyRuns(numHosts, n, n', g, i, h);
  }

  lemma CopyRuns(numHosts: u32, n: Net, n': Net, g: Gid, i: nat, h: Gid)
    requires TasksOk(numHosts, n) && PushesOk(numHosts, n) && RunsOk(numHosts, n) && Near(n, n', g, h)
    requires h in n.tasks && h in n'.tasks && n.tasks[h].role == Copy(g, i)
    requires n'.tasks == n.tasks[h := n'.tasks[h]] && n'.pushes == n.pushes && n'.tasks[h].node == n.tasks[h].node
    requires Entered(n.tasks[h]) ==> Entered(n'.tasks[h])
    requires n'.runs == if Entered(n'.tasks[h]) && !Entered(n.tasks[h]) then n.runs + multiset{RunKey(h, n.tasks[h])}
                        else n.runs
    ensures RunsOk(numHosts, n')
  {
    assert TaskOk(numHosts, n, h);
    assert LinkOk(n, g) && PushOk(numHosts, n.tasks[g], n.pushes[g]);
    forall q: Gid, r: nat, m: u32 ensures n'.runs[(q, r, m)] == (if Happened(numHosts, n', q, r, m) then 1 else 0) {
      if q != g {
        OthersHappened(numHosts, n, n', g, h, q, r, m);
      } else if r < |n.pushes[g].copies| {
        assert ReplicaOk(n.tasks[g], n.pushes[g], g, r, n.tasks[n.pushes[g].copies[r]]);
      }
    }
  }

  lemma RunInv(numHosts: u32, n: Net, st: Step, n': Net)
    requires Inv(numHosts, n) && st.Run? && n' == Apply(numHosts, n, st)
    ensures Inv(numHosts, n')
  {
    if n' != n {
      assert TaskOk(numHosts, n, st.g);
      if n.tasks[st.g].role == Origin {
        LocalReplaced(numHosts, n, n', st.g);
      } else {
        CopyReplaced(numHosts, n, n', st.g);
      }
    }
  }

  lemma ThreadDoneInv(numHosts: u32, n: Net, st: Step, n': Net)
    requires Inv(numHosts, n) && st.ThreadDone? && n' == Apply(numHosts, n, st)
    ensures Inv(numHosts, n')
  {
    if n' != n {
      assert TaskOk(numHosts, n, st.g);
      if n.tasks[st.g].role == Origin {
        LocalReplaced(numHosts, n, n', st.g);
      } else {
        CopyReplaced(numHosts, n, n', st.g);
      }
    }
  }

  lemma EndInv(numHosts: u32, n: Net, st: Step, n': Net)
    requires Inv(numHosts, n) && st.End? && n' == Apply(numHosts, n, st)
    ensures Inv(numHosts, n')
  {
    if n' != n {
      assert TaskOk(numHosts, n, st.g);
      if n.tasks[st.g].role.Copy? {
        CopyReplaced(numHosts, n, n', st.g);
      } else {
        OriginEnds(numHosts, n.tasks[st.g], n'.tasks[st.g], st.g in n.pushes);
        if st.g in n.pushes {
          OriginReplaced(numHosts, n, n', st.g);
        } else {
          LocalReplaced(numHosts, n, n', st.g);
        }
      }
    }
  }

  /** Deleted if fire-and-forget, published if not. */
  lemma OriginEnds(numHosts: u32, t: NetTask, t': NetTask, pushed: bool)
    requires OriginOk(numHosts, t, pushed) && !t.over && !t.busy && ModuleComplete in t.flags
    requires t' == if FireAndForget in t.flags then t.(over := true, dels := t.dels + 1)
                   else t.(over := true, flags := t.flags + {ModuleComplete, Complete})
    ensures OriginOk(numHosts, t', pushed)
  {}

  lemma OwnerDeleteInv(numHosts: u32, n: Net, st: Step, n': Net)
    requires Inv(numHosts, n) && st.OwnerDelete? && n' == Apply(numHosts, n, st)
    ensures Inv(numHosts, n')
  {
    if n' != n {
      assert TaskOk(numHosts, n, st.g);
      if st.g in n.pushes {
        OriginReplaced(numHosts, n, n', st.g);
      } else {
        LocalReplaced(numHosts, n, n', st.g);
      }
    }
  }

  // ---------------------------------------------------------------- steps of the push thread and its calls

  /** Which copies of `g` have been entered, and where, is the same before and after. */
  ghost predicate SameEntries(n: Net, n': Net, g: Gid)
    requires g in n.pushes && g in n'.pushes
  {
    var cs, cs' := n.pushes[g].copies, n'.pushes[g].copies;
    && cs <= cs'
    && (forall r | 0 <= r < |cs| ::
          && cs[r] in n.tasks && cs[r] in n'.tasks && n'.tasks[cs[r]].node == n.tasks[cs[r]].node
          && Entered(n'.tasks[cs[r]]) == Entered(n.tasks[cs[r]]))
    && (forall r | |cs| <= r < |cs'| :: cs'[r] in n'.tasks && !Entered(n'.tasks[cs'[r]]))
  }

  /** What a step of the push of `g`, which touches at most `g`, its push and its copy `a`, has to keep. */
  ghost predicate PushStepOk(numHosts: u32, n: Net, n': Net, g: Gid, a: Gid) {
    && Near(n, n', g, a) && g in n.pushes && g in n'.pushes && g in n.tasks && g in n'.tasks && a in n'.tasks
    && TaskOk(numHosts, n', g) && TaskOk(numHosts, n', a)
    && PushOk(numHosts, n'.tasks[g], n'.pushes[g]) && LinkOk(n', g) && SameEntries(n, n', g)
    && n'.tasks[g].domain == n.tasks[g].domain && n'.tasks[g].node == n.tasks[g].node
    && n'.runs == n.runs && n'.dispersals == n.dispersals && !n'.fault
  }

  lemma PushStepInv(numHosts: u32, n: Net, n': Net, g: Gid, a: Gid)
    requires Inv(numHosts, n) && PushStepOk(numHosts, n, n', g, a)
    ensures Inv(numHosts, n')
  {
    OthersOk(numHosts, n, n', g, a);
    assert PushOk(numHosts, n.tasks[g], n.pushes[g]);
    PushStepHappened(numHosts, n, n', g);
    SameRuns(numHosts, n, n', g, a);
    SameDispersals(n, n', g);
  }

  lemma SameDispersals(n: Net, n': Net, g: Gid)
    requires DispersalsOk(n) && n'.dispersals == n.dispersals && g in n.pushes && g in n'.pushes
    requires forall q | q != g :: q in n'.pushes <==> q in n.pushes
    ensures DispersalsOk(n')
  {}

  lemma PushStepHappened(numHosts: u32, n: Net, n': Net, g: Gid)
    requires g in n.pushes && g in n'.pushes && g in n.tasks && g in n'.tasks && SameEntries(n, n', g)
    requires n.tasks[g].role == n'.tasks[g].role == Origin && Away(numHosts, n.tasks[g])
    requires n'.tasks[g].domain == n.tasks[g].domain && n'.tasks[g].node == n.tasks[g].node
    ensures forall r: nat, m: u32 :: Happened(numHosts, n', g, r, m) == Happened(numHosts, n, g, r, m)
  {
    forall r: nat, m: u32 ensures Happened(numHosts, n', g, r, m) == Happened(numHosts, n, g, r, m) {
      if r < |n.pushes[g].copies| {
        assert n'.pushes[g].copies[r] == n.pushes[g].copies[r];
      }
    }
  }

  /** The push of `g` as it is before a step of its own. */
  ghost predicate PushReady(numHosts: u32, n: Net, g: Gid) {
    && g in n.pushes && g in n.tasks && PushOk(numHosts, n.tasks[g], n.pushes[g]) && LinkOk(n, g)
    && n.tasks[g].role == Origin && OriginOk(numHosts, n.tasks[g], true) && !n.fault
  }

  lemma ReadyPush(numHosts: u32, n: Net, g: Gid)
    requires Inv(numHosts, n) && g in n.pushes
    ensures PushReady(numHosts, n, g)
  {
    assert g in n.tasks && PushOk(numHosts, n.tasks[g], n.pushes[g]) && LinkOk(n, g) && TaskOk(numHosts, n, g);
  }

  /** The replicas of `g` below `bound` are as settled after the step as before it. */
  lemma LinkMoved(n: Net, n': Net, g: Gid, bound: nat)
    requires g in n.pushes && g in n.tasks && LinkOk(n, g) && g in n'.pushes && g in n'.tasks
    requires n.pushes[g].copies <= n'.pushes[g].copies && n.pushes[g].targets == n'.pushes[g].targets
    requires bound <= |n.pushes[g].copies|
    requires forall r | 0 <= r < bound ::
               n.pushes[g].copies[r] in n'.tasks && n'.tasks[n.pushes[g].copies[r]] == n.tasks[n.pushes[g].copies[r]]
    requires bound <= n.pushes[g].next && n'.pushes[g].next == n.pushes[g].next
    requires n'.tasks[g].replicates == n.tasks[g].replicates && n'.tasks[g].ret == n.tasks[g].ret
    requires n'.pushes[g].wire == n.pushes[g].wire
    ensures forall r | 0 <= r < bound ::
              n'.pushes[g].copies[r] in n'.tasks
              && ReplicaOk(n'.tasks[g], n'.pushes[g], g, r, n'.tasks[n'.pushes[g].copies[r]])
  {
    forall r | 0 <= r < bound
      ensures n'.pushes[g].copies[r] in n'.tasks
              && ReplicaOk(n'.tasks[g], n'.pushes[g], g, r, n'.tasks[n'.pushes[g].copies[r]])
    {
      assert ReplicaOk(n.tasks[g], n.pushes[g], g, r, n.tasks[n.pushes[g].copies[r]]);
      assert n'.pushes[g].copies[r] == n.pushes[g].copies[r];
    }
  }

  lemma SendOk(numHosts: u32, n: Net, g: Gid, n': Net)
    requires PushReady(numHosts, n, g) && n' == Apply(numHosts, n, Send(g)) && n' != n
    ensures PushStepOk(numHosts, n, n', g, g)
  {
    LinkMoved(n, n', g, n.pushes[g].next);
  }

  lemma SendInv(numHosts: u32, n: Net, st: Step, n': Net)
    requires Inv(numHosts, n) && st.Send? && n' == Apply(numHosts, n, st)
    ensures Inv(numHosts, n')
  {
    if n' != n {
      ReadyPush(numHosts, n, st.g);
      SendOk(numHosts, n, st.g, n');
      PushStepInv(numHosts, n, n', st.g, st.g);
    }
  }

  lemma RpcExecOk(numHosts: u32, n: Net, g: Gid, h: Gid, n': Net)
    requires PushReady(numHosts, n, g) && n' == Apply(numHosts, n, RpcExec(g, h)) && n' != n
    requires h !in n.pushes
    ensures PushStepOk(numHosts, n, n', g, h)
  {
    var p := n.pushes[g];
    TargetsAreHosts(numHosts, n.tasks[g], p.next);
    NewCopyOk(numHosts, n.tasks[g], p, g, n'.tasks[h]);
    LinkMoved(n, n', g, p.next);
    assert LinkOk(n', g);
  }

  lemma PushedExists(numHosts: u32, n: Net, h: Gid)
    requires PushesOk(numHosts, n)
    ensures h in n.pushes ==> h in n.tasks
  {}

  lemma RpcExecInv(numHosts: u32, n: Net, st: Step, n': Net)
    requires Inv(numHosts, n) && st.RpcExec? && n' == Apply(numHosts, n, st)
    ensures Inv(numHosts, n')
  {
    if n' != n {
      ReadyPush(numHosts, n, st.g);
      PushedExists(numHosts, n, st.copy);
      RpcExecOk(numHosts, n, st.g, st.copy, n');
      PushStepInv(numHosts, n, n', st.g, st.copy);
    }
  }

  /** The task RpcExec rebuilds and emplaces. */
  lemma NewCopyOk(numHosts: u32, t: NetTask, p: Push, g: Gid, copy: NetTask)
    requires PushOk(numHosts, t, p) && p.phase == Sent && 1 <= p.targets[p.next] <= numHosts
    requires copy == NetTask(p.targets[p.next], NodeDomain(p.targets[p.next]), CopyFlags(p.wire), Copy(g, p.next),
                             false, false, t.replicates, [0], 0)
    ensures CopyOk(numHosts, copy) && !Entered(copy)
    ensures Coroutine in copy.flags <==> Coroutine in p.wire
    ensures Preemptive in copy.flags <==> Preemptive in p.wire
  {}

  lemma TargetsAreHosts(numHosts: u32, t: NetTask, r: nat)
    requires OriginOk(numHosts, t, true) && r < |Resolve(t.domain, numHosts)|
    ensures 1 <= Resolve(t.domain, numHosts)[r] <= numHosts
  {}

  lemma RpcCompleteOk(numHosts: u32, n: Net, g: Gid, h: Gid, n': Net)
    requires PushReady(numHosts, n, g) && n' == Apply(numHosts, n, RpcComplete(g)) && n' != n
    requires n.pushes[g].phase.Waiting? && h == n.pushes[g].copies[n.pushes[g].next]
    requires h in n.tasks && h != g && TaskOk(numHosts, n, h)
    ensures PushStepOk(numHosts, n, n', g, h)
  {
    var p := n.pushes[g];
    assert ReplicaOk(n.tasks[g], p, g, p.next, n.tasks[h]);
    CopiesDiffer(n, g, h);
    LinkMoved(n, n', g, p.next);
    assert ReplicaOk(n'.tasks[g], n'.pushes[g], g, p.next, n'.tasks[h]);
    assert LinkOk(n', g);
  }

  /** The copy waited for is none of the copies before it. */
  lemma CopiesDiffer(n: Net, g: Gid, h: Gid)
    requires g in n.pushes && g in n.tasks && LinkOk(n, g) && n.pushes[g].next < |n.pushes[g].copies|
    requires h == n.pushes[g].copies[n.pushes[g].next]
    ensures forall r | 0 <= r < n.pushes[g].next :: n.pushes[g].copies[r] != h
  {
    var p := n.pushes[g];
    assert ReplicaOk(n.tasks[g], p, g, p.next, n.tasks[h]);
    forall r | 0 <= r < p.next ensures p.copies[r] != h {
      assert ReplicaOk(n.tasks[g], p, g, r, n.tasks[p.copies[r]]);
    }
  }

  lemma RpcCompleteInv(numHosts: u32, n: Net, st: Step, n': Net)
    requires Inv(numHosts, n) && st.RpcComplete? && n' == Apply(numHosts, n, st)
    ensures Inv(numHosts, n')
  {
    if n' != n {
      var g := st.g;
      ReadyPush(numHosts, n, g);
      var h := n.pushes[g].copies[n.pushes[g].next];
      assert ReplicaOk(n.tasks[g], n.pushes[g], g, n.pushes[g].next, n.tasks[h]);
      assert TaskOk(numHosts, n, h);
      RpcCompleteOk(numHosts, n, g, h, n');
      PushStepInv(numHosts, n, n', g, h);
    }
  }

  lemma LoadReplyOk(numHosts: u32, n: Net, g: Gid, n': Net)
    requires PushReady(numHosts, n, g) && n' == Apply(numHosts, n, LoadReply(g)) && n' != n
    requires n.tasks[g].dels == 0
    ensures PushStepOk(numHosts, n, n', g, g)
  {
    LoadReplyLink(numHosts, n, g, n');
    forall r | 0 <= r < |n.pushes[g].copies|
      ensures n.pushes[g].copies[r] in n'.tasks && n'.tasks[n.pushes[g].copies[r]] == n.tasks[n.pushes[g].copies[r]]
    {
      assert ReplicaOk(n.tasks[g], n.pushes[g], g, r, n.tasks[n.pushes[g].copies[r]]);
    }
  }

  lemma LoadReplyLink(numHosts: u32, n: Net, g: Gid, n': Net)
    requires g in n.pushes && g in n.tasks && PushOk(numHosts, n.tasks[g], n.pushes[g]) && LinkOk(n, g)
    requires n.pushes[g].phase.Replied? && n' == Apply(numHosts, n, LoadReply(g))
    ensures g in n'.pushes && g in n'.tasks && PushOk(numHosts, n'.tasks[g], n'.pushes[g]) && LinkOk(n', g)
  {
    forall r | 0 <= r < |n'.pushes[g].copies|
      ensures n'.pushes[g].copies[r] in n'.tasks
              && ReplicaOk(n'.tasks[g], n'.pushes[g], g, r, n'.tasks[n'.pushes[g].copies[r]])
    {
      assert ReplicaOk(n.tasks[g], n.pushes[g], g, r, n.tasks[n.pushes[g].copies[r]]);
    }
  }

  lemma LoadReplyInv(numHosts: u32, n: Net, st: Step, n': Net)
    requires Inv(numHosts, n) && st.LoadReply? && n' == Apply(numHosts, n, st)
    ensures Inv(numHosts, n')
  {
    if n' != n {
      ReadyPush(numHosts, n, st.g);
      LoadReplyOk(numHosts, n, st.g, n');
      PushStepInv(numHosts, n, n', st.g, st.g);
    }
  }

  lemma PushEndOk(numHosts: u32, n: Net, g: Gid, n': Net)
    requires PushReady(numHosts, n, g) && n' == Apply(numHosts, n, PushEnd(g)) && n' != n
    ensures PushStepOk(numHosts, n, n', g, g)
  {
    LinkMoved(n, n', g, n.pushes[g].next);
    assert LinkOk(n', g);
    forall r | 0 <= r < |n.pushes[g].copies|
      ensures n.pushes[g].copies[r] in n'.tasks && n'.tasks[n.pushes[g].copies[r]] == n.tasks[n.pushes[g].copies[r]]
    {
      assert ReplicaOk(n.tasks[g], n.pushes[g], g, r, n.tasks[n.pushes[g].copies[r]]);
    }
  }

  lemma PushEndInv(numHosts: u32, n: Net, st: Step, n': Net)
    requires Inv(numHosts, n) && st.PushEnd? && n' == Apply(numHosts, n, st)
    ensures Inv(numHosts, n')
  {
    if n' != n {
      ReadyPush(numHosts, n, st.g);
      PushEndOk(numHosts, n, st.g, n');
      PushStepInv(numHosts, n, n', st.g, st.g);
    }
  }

  // ---------------------------------------------------------------- runs

  lemma StepInv(numHosts: u32, n: Net, st: Step, n': Net)
    requires Inv(numHosts, n) && n' == Apply(numHosts, n, st)
    ensures Inv(numHosts, n')
  {
    match st {
      case Submit(_, _, _, _, _) => SubmitInv(numHosts, n, st, n');
      case Disperse(_) => DisperseInv(numHosts, n, st, n');
      case Settle(_) => SettleInv(numHosts, n, st, n');
      case Run(_, _, _) => RunInv(numHosts, n, st, n');
      case ThreadDone(_, _) => ThreadDoneInv(numHosts, n, st, n');
      case End(_) => EndInv(numHosts, n, st, n');
      case OwnerDelete(_) => OwnerDeleteInv(numHosts, n, st, n');
      case Send(_) => SendInv(numHosts, n, st, n');
      case RpcExec(_, _) => RpcExecInv(numHosts, n, st, n');
      case RpcComplete(_) => RpcCompleteInv(numHosts, n, st, n');
      case LoadReply(_) => LoadReplyInv(numHosts, n, st, n');
      case PushEnd(_) => PushEndInv(numHosts, n, st, n');
    }
  }

  lemma {:induction false} ReachableInv(numHosts: u32, n: Net, steps: seq<Step>)
    requires Inv(numHosts, n)
    ensures Inv(numHosts, ApplySteps(numHosts, n, steps))
    decreases steps
  {
    if steps != [] {
      var n1 := Apply(numHosts, n, steps[0]);
      StepInv(numHosts, n, steps[0], n1);
      ReachableInv(numHosts, n1, steps[1..]);
    }
  }

  lemma EmptyInv(numHosts: u32)
    ensures Inv(numHosts, EMPTY)
  {}
}
