/** Serving planned arrivals one at a time: any prefix of a lane's plan can be run to its end. */
module WorkerServe {
  import opened HrunTypes
  import opened WorkerModel
  import opened WorkerInvariant
  import opened WorkerSteps
  import opened WorkerRuns
  import opened WorkerTouch
  import opened WorkerOrder
  import opened WorkerProgress
  import opened WorkerArrivals

  predicate AllFresh(plan: Plan) {
    forall l, i | 0 <= l < |plan| && 0 <= i < |plan[l]| :: Fresh(plan[l][i])
  }

  // ---------------------------------------------------------------- polls one by one

  /** One step of another thread, then at most one iteration, in which the module does not finish. */
  function Tick(c: Config, s: State, l: nat, e: EnvStep): (s': State)
    requires l < |s.lanes|
  {
    var s0 := ApplyEnv(c, s, e);
    if s0.lanes[l].head < |s0.lanes[l].slots| then Iterate(c, s0, l, 0, STAY).0 else s0
  }

  function TickPoll(l: nat, e: EnvStep): seq<Poll> {
    [Poll(l, [Choice([e], STAY)])]
  }

  lemma {:induction false} TickIsPoll(c: Config, s: State, l: nat, e: EnvStep)
    requires l < |s.lanes|
    ensures Bounded(TickPoll(l, e)) && Execute(c, s, TickPoll(l, e)) == Tick(c, s, l, e)
  {
    var script, env := [Choice([e], STAY)], [e];
    OnePass(c, s, l, script);
    assert script[1..] == [] && env[1..] == [];
    assert ApplyAll(c, s, env) == ApplyEnv(c, s, e);
  }

  lemma TickInv(c: Config, s: State, l: nat, e: EnvStep)
    requires Inv(c, s) && InReach(s) && l < |s.lanes|
    ensures Inv(c, Tick(c, s, l, e)) && InReach(Tick(c, s, l, e))
  {
    TickIsPoll(c, s, l, e);
    ReachableInv(c, s, TickPoll(l, e));
    RunReach(c, s, TickPoll(l, e));
  }

  /** Two runs, one after the other. */
  lemma {:induction false} TwoLegs(c: Config, s: State, a: seq<Poll>, s1: State, b: seq<Poll>, s2: State)
    requires Bounded(a) && s1 == Execute(c, s, a) && Bounded(b) && s2 == Execute(c, s1, b)
    ensures Bounded(a + b) && s2 == Execute(c, s, a + b)
  {
    ThenPolls(c, s, a, b);
  }

  // ---------------------------------------------------------------- serving one task completely

  ghost predicate HeadsFull(s: State) {
    forall k | 0 <= k < |s.lanes| :: s.lanes[k].head == |s.lanes[k].slots|
  }

  /** Everything that arrived was planned and is done with. */
  ghost predicate Idle(c: Config, plan: Plan, s: State) {
    Inv(c, s) && InReach(s) && Follows(plan, s) && s.tasks == map[] && HeadsFull(s)
  }

  /** The lanes hold what they held, and `extra` more slots in lane `l`. */
  ghost predicate Longer(s: State, l: nat, extra: nat, s': State) {
    && |s'.lanes| == |s.lanes|
    && forall k | 0 <= k < |s.lanes| ::
         |s'.lanes[k].slots| == |s.lanes[k].slots| + (if k == l then extra else 0)
         && s'.lanes[k].laneId == s.lanes[k].laneId
  }

  lemma SameLengths(s: State, s': State)
    requires LanesOk(s) && LanesOk(s') && s'.born == s.born && AllGrew(s, s')
    ensures forall k | 0 <= k < |s.lanes| :: |s'.lanes[k].slots| == |s.lanes[k].slots|
  {
    forall k | 0 <= k < |s.lanes| ensures |s'.lanes[k].slots| == |s.lanes[k].slots| {
      assert Grew(s.lanes[k], s'.lanes[k]) && LaneOk(s', k);
      var n := |s.lanes[k].slots|;
      assert n < |s'.lanes[k].slots| ==> InLane(s, s'.lanes[k].slots[n].p);
    }
  }

  lemma FollowsStill(plan: Plan, s: State, s': State)
    requires Follows(plan, s) && LanesOk(s) && LanesOk(s') && s'.born == s.born && AllGrew(s, s')
    ensures Follows(plan, s')
  {
    SameLengths(s, s');
    forall l: nat, i: nat ensures AsPlanned(plan, s', l, i) {
      if l < |plan| && i < |s'.lanes[l].slots| {
        assert Grew(s.lanes[l], s'.lanes[l]) && AsPlanned(plan, s, l, i);
      }
    }
  }

  lemma FollowsArrival(c: Config, plan: Plan, s: State, l: nat, p: Ptr, s': State)
    requires Follows(plan, s) && LanesOk(s) && l < |plan| && |s.lanes[l].slots| < |plan[l]|
    requires s' == ApplyEnv(c, s, Emplace(l, plan[l][|s.lanes[l].slots|], p)) && p !in s.born && p in s'.born
    ensures Follows(plan, s') && Longer(s, l, 1, s')
  {
    forall k: nat, i: nat ensures AsPlanned(plan, s', k, i) {
      if k < |plan| && i < |s'.lanes[k].slots| {
        assert AsPlanned(plan, s, k, i);
        assert LaneOk(s, k);
      }
    }
  }

  /** Pop everything that is closed. */
  lemma {:induction false} PopClosed(c: Config, s: State, l: nat) returns (polls: seq<Poll>, s': State)
    requires Inv(c, s) && InReach(s) && l < |s.lanes| && Open(s) == {}
    ensures Onward(c, s, polls, s') && s'.lanes[l].head == |s'.lanes[l].slots|
    decreases |s.lanes[l].slots| - s.lanes[l].head
  {
    assert LaneOk(s, l);
    if s.lanes[l].head == |s.lanes[l].slots| {
      NotMoving(c, s);
      polls, s' := [], s;
    } else {
      var p := s.lanes[l].slots[s.lanes[l].head].p;
      assert InLane(s, p) && p !in Open(s);
      var s1 := Iterate(c, s, l, 0, STAY).0;
      PollOnward(c, s, l, STAY, s1);
      assert s1.lanes[l] == s.lanes[l].(head := s.lanes[l].head + 1);
      StillClosed(c, s, [Poll(l, [Choice([], STAY)])], s1);
      var rest, s2 := PopClosed(c, s1, l);
      OnwardOn(c, s, [Poll(l, [Choice([], STAY)])], s1, rest, s2);
      polls, s' := [Poll(l, [Choice([], STAY)])] + rest, s2;
    }
  }

  lemma StillClosed(c: Config, s: State, polls: seq<Poll>, s': State)
    requires LanesOk(s) && Open(s) == {} && Onward(c, s, polls, s')
    ensures Open(s') == {}
  {
    forall q | q in s'.born ensures q !in Open(s') {
      assert InLane(s, q) && q !in Open(s);
      assert Grew(s.lanes[s.born[q].lane], s'.lanes[s.born[q].lane]);
    }
  }

  /** End everything, pop lane `l`, and stay as planned. */
  lemma Settle(c: Config, plan: Plan, s: State, l: nat) returns (polls: seq<Poll>, s': State)
    requires Inv(c, s) && InReach(s) && Follows(plan, s) && l < |s.lanes|
    ensures Onward(c, s, polls, s') && Follows(plan, s') && Longer(s, l, 0, s')
    ensures Open(s') == {} && s'.lanes[l].head == |s'.lanes[l].slots|
  {
    var a, s1 := EndAll(c, s);
    var b, s2 := PopClosed(c, s1, l);
    StillClosed(c, s1, b, s2);
    OnwardOn(c, s, a, s1, b, s2);
    polls, s' := a + b, s2;
    FollowsStill(plan, s, s');
    SameLengths(s, s');
    forall k | 0 <= k < |s.lanes| ensures s'.lanes[k].laneId == s.lanes[k].laneId {
      assert Grew(s.lanes[k], s'.lanes[k]);
    }
  }

  /** The owner deletes the one task there is. */
  lemma Cleared(c: Config, plan: Plan, s: State, l: nat, p: Ptr, s': State)
    requires Inv(c, s) && InReach(s) && Follows(plan, s) && HeadsFull(s) && l < |s.lanes|
    requires Open(s) == {} && s.tasks.Keys <= {p} && s' == Tick(c, s, l, Reclaim(p))
    ensures Idle(c, plan, s') && Longer(s, l, 0, s')
  {
    TickInv(c, s, l, Reclaim(p));
    assert s' == ApplyEnv(c, s, Reclaim(p));
    ClosedIsComplete(c, s, p);
    assert s'.tasks == map[];
    FollowsSame(plan, s, s');
  }

  lemma ClosedIsComplete(c: Config, s: State, p: Ptr)
    requires LanesOk(s) && TasksOk(c, s) && Open(s) == {}
    ensures p in s.tasks ==> Complete in s.tasks[p].flags
  {
    if p in s.tasks {
      assert Housed(c, s, p) && InLane(s, p) && p !in Open(s);
    }
  }

  lemma FollowsSame(plan: Plan, s: State, s': State)
    requires Follows(plan, s) && s'.lanes == s.lanes && s'.born == s.born
    ensures Follows(plan, s')
  {
    forall k: nat, i: nat ensures AsPlanned(plan, s', k, i) { assert AsPlanned(plan, s, k, i); }
  }

  lemma OthersFull(s: State, s': State, l: nat)
    requires AllGrew(s, s') && (forall k | 0 <= k < |s.lanes| && k != l :: s.lanes[k].head == |s.lanes[k].slots|)
    requires forall k | 0 <= k < |s.lanes| :: |s'.lanes[k].slots| == |s.lanes[k].slots|
    requires l < |s.lanes| && s'.lanes[l].head == |s'.lanes[l].slots|
    ensures HeadsFull(s')
  {
    forall k | 0 <= k < |s'.lanes| ensures s'.lanes[k].head == |s'.lanes[k].slots| {
      assert Grew(s.lanes[k], s'.lanes[k]);
    }
  }

  /** The next planned task of lane `l` arrives in an idle worker. */
  lemma ArriveIdle(c: Config, plan: Plan, s: State, l: nat, p: Ptr, s1: State)
    requires Idle(c, plan, s) && !c.exclusiveRoots && AllFresh(plan) && l < |plan| && |s.lanes[l].slots| < |plan[l]|
    requires p !in s.born && s1 == ApplyEnv(c, s, Emplace(l, plan[l][|s.lanes[l].slots|], p))
    ensures Inv(c, s1) && InReach(s1) && Follows(plan, s1) && Longer(s, l, 1, s1) && s1.tasks.Keys == {p}
    ensures OpenAt(c, s1, l, 0, p) && !Entered(s1.tasks[p]) && s1.lanes[l].laneId !in s1.groups
    ensures forall k | 0 <= k < |s.lanes| && k != l :: s1.lanes[k] == s.lanes[k]
  {
    var e := Emplace(l, plan[l][|s.lanes[l].slots|], p);
    EnvStepInv(c, s, e);
    EnvStepReach(c, s, e);
    FollowsArrival(c, plan, s, l, p, s1);
    assert Housed(c, s1, p) && InLane(s1, p);
    assert GroupOk(c, s.tasks, s.groups, s.lanes[l].laneId);
    assert Holders(c, s.tasks, s.lanes[l].laneId) == {};
  }

  lemma LongerOn(s: State, l: nat, a: nat, s1: State, b: nat, s2: State)
    requires Longer(s, l, a, s1) && Longer(s1, l, b, s2)
    ensures Longer(s, l, a + b, s2)
  {}

  /** It is examined once, ... */
  lemma ArriveAndTick(c: Config, plan: Plan, s: State, l: nat, p: Ptr, s2: State)
    requires Idle(c, plan, s) && !c.exclusiveRoots && AllFresh(plan) && l < |plan| && |s.lanes[l].slots| < |plan[l]|
    requires p !in s.born && s2 == Tick(c, s, l, Emplace(l, plan[l][|s.lanes[l].slots|], p))
    ensures Inv(c, s2) && InReach(s2) && Follows(plan, s2) && Longer(s, l, 1, s2) && s2.tasks.Keys <= {p}
    ensures forall k | 0 <= k < |s.lanes| && k != l :: s2.lanes[k].head == |s2.lanes[k].slots|
  {
    var s1 := ApplyEnv(c, s, Emplace(l, plan[l][|s.lanes[l].slots|], p));
    ArriveIdle(c, plan, s, l, p, s1);
    PollOnward(c, s1, l, STAY, s2);
    FollowsStill(plan, s1, s2);
    SameLengths(s1, s2);
    forall k | 0 <= k < |s.lanes|
      ensures s2.lanes[k].laneId == s1.lanes[k].laneId
      ensures k != l ==> s2.lanes[k].head == |s2.lanes[k].slots|
    {
      assert Grew(s1.lanes[k], s2.lanes[k]);
    }
  }

  /** ... ended, ... */
  lemma SettleOne(c: Config, plan: Plan, s: State, l: nat, p: Ptr) returns (polls: seq<Poll>, s': State)
    requires Inv(c, s) && InReach(s) && Follows(plan, s) && l < |s.lanes| && s.tasks.Keys <= {p}
    requires forall k | 0 <= k < |s.lanes| && k != l :: s.lanes[k].head == |s.lanes[k].slots|
    ensures Bounded(polls) && s' == Execute(c, s, polls)
    ensures Inv(c, s') && InReach(s') && Follows(plan, s') && HeadsFull(s') && Longer(s, l, 0, s')
    ensures Open(s') == {} && s'.tasks.Keys <= {p}
  {
    polls, s' := Settle(c, plan, s, l);
    SameLengths(s, s');
    OthersFull(s, s', l);
  }

  /** ... and deleted. */
  lemma Serve(c: Config, plan: Plan, s: State, l: nat) returns (polls: seq<Poll>, s': State)
    requires Idle(c, plan, s) && !c.exclusiveRoots && AllFresh(plan) && l < |plan| && |s.lanes[l].slots| < |plan[l]|
    ensures Bounded(polls) && s' == Execute(c, s, polls) && Idle(c, plan, s') && Longer(s, l, 1, s')
  {
    var p := Unused(s.born.Keys);
    var e := Emplace(l, plan[l][|s.lanes[l].slots|], p);
    var s1 := Tick(c, s, l, e);
    ArriveAndTick(c, plan, s, l, p, s1);
    var mid, s2 := SettleOne(c, plan, s1, l, p);
    s' := Tick(c, s2, l, Reclaim(p));
    Cleared(c, plan, s2, l, p, s');
    LongerOn(s, l, 1, s1, 0, s2);
    LongerOn(s, l, 1, s2, 0, s');
    polls := ThreePolls(c, s, l, e, s1, mid, s2, Reclaim(p));
  }

  lemma ThreePolls(c: Config, s: State, l: nat, e: EnvStep, s1: State, mid: seq<Poll>, s2: State, f: EnvStep)
    returns (polls: seq<Poll>)
    requires l < |s.lanes| && s1 == Tick(c, s, l, e) && l < |s1.lanes|
    requires Bounded(mid) && s2 == Execute(c, s1, mid) && l < |s2.lanes|
    ensures Bounded(polls) && Execute(c, s, polls) == Tick(c, s2, l, f)
  {
    TickIsPoll(c, s, l, e);
    TickIsPoll(c, s2, l, f);
    ThenPolls(c, s, TickPoll(l, e), mid);
    ThenPolls(c, s, TickPoll(l, e) + mid, TickPoll(l, f));
    polls := TickPoll(l, e) + mid + TickPoll(l, f);
  }

  lemma {:induction false} ServeTo(c: Config, plan: Plan, s: State, l: nat, n: nat)
    returns (polls: seq<Poll>, s': State)
    requires Idle(c, plan, s) && !c.exclusiveRoots && AllFresh(plan) && l < |plan|
    requires |s.lanes[l].slots| <= n <= |plan[l]|
    ensures Bounded(polls) && s' == Execute(c, s, polls) && Idle(c, plan, s')
    ensures Longer(s, l, n - |s.lanes[l].slots|, s')
    decreases n - |s.lanes[l].slots|
  {
    if |s.lanes[l].slots| == n {
      polls, s' := [], s;
    } else {
      var first, s1 := Serve(c, plan, s, l);
      var rest, s2 := ServeTo(c, plan, s1, l, n);
      TwoLegs(c, s, first, s1, rest, s2);
      LongerOn(s, l, 1, s1, n - |s1.lanes[l].slots|, s2);
      polls, s' := first + rest, s2;
    }
  }
}
