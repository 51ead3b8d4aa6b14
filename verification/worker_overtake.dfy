/** Why the order theorem needs its hypothesis: a shared root lets a later task overtake. */
module WorkerOvertake {
  import opened HrunTypes
  import opened WorkerModel
  import opened WorkerOrder

  const ALICE := UniqueId(1, 0, 7)
  const BOB := UniqueId(1, 0, 8)

  function OrderedTask(root: UniqueId): Task {
    Task(root, LocalDomain(), Module(0), {}, 0, false)
  }

  function Arrival(root: UniqueId, p: Ptr): Choice {
    Choice([Emplace(0, OrderedTask(root), p)], STAY)
  }

  function StartedTask(root: UniqueId): Task {
    OrderedTask(root).(flags := {HasStarted})
  }

  lemma OneArrival(c: Config, s: State, root: UniqueId, p: Ptr)
    ensures ApplyAll(c, s, Arrival(root, p).env) == ApplyEnv(c, s, Emplace(0, OrderedTask(root), p))
  {
    var env := Arrival(root, p).env;
    assert env[1..] == [];
  }

  /** The arrival of a task, spelled out. */
  lemma Arrived(c: Config, s: State, root: UniqueId, p: Ptr)
    requires c == Config(1, 1, false) && |s.lanes| == 1 && p !in s.born && p !in s.tasks && |s.tasks| < 10
    ensures
      var lane := s.lanes[0];
      ApplyEnv(c, s, Emplace(0, OrderedTask(root), p))
      == s.(lanes := [lane.(slots := lane.slots + [Slot(p, false)])],
            tasks := s.tasks[p := OrderedTask(root)],
            born := s.born[p := Birth(0, |lane.slots|, true, false, false, OrderedTask(root))])
  {
    assert s.lanes == [s.lanes[0]];
  }

  const S0 := State([Lane(0, [], 0)], map[], map[], map[], [], {}, false)
  const S1 := State([Lane(0, [Slot(0, false)], 0)], map[0 := StartedTask(ALICE)], map[0 := GroupNode(ALICE, 1)],
                    map[0 := Birth(0, 0, true, false, false, OrderedTask(ALICE))], [Touched(0), Admitted(0)], {}, false)
  const S2 := State([Lane(0, [Slot(0, false), Slot(1, false)], 0)],
                    map[0 := StartedTask(ALICE), 1 := OrderedTask(BOB)], map[0 := GroupNode(ALICE, 1)],
                    map[0 := Birth(0, 0, true, false, false, OrderedTask(ALICE)),
                        1 := Birth(0, 1, true, false, false, OrderedTask(BOB))],
                    [Touched(0), Admitted(0), Touched(1)], {}, false)
  const S3 := State([Lane(0, [Slot(0, false), Slot(1, false), Slot(2, false)], 0)],
                    map[0 := StartedTask(ALICE), 1 := OrderedTask(BOB), 2 := StartedTask(ALICE)],
                    map[0 := GroupNode(ALICE, 2)],
                    map[0 := Birth(0, 0, true, false, false, OrderedTask(ALICE)),
                        1 := Birth(0, 1, true, false, false, OrderedTask(BOB)),
                        2 := Birth(0, 2, true, false, false, OrderedTask(ALICE))],
                    [Touched(0), Admitted(0), Touched(1), Touched(2), Admitted(2)], {}, false)

  ghost predicate Reaches(c: Config, s: State, root: UniqueId, p: Ptr, s': State)
    requires |s.lanes| == 1
  {
    var a := ApplyEnv(c, s, Emplace(0, OrderedTask(root), p));
    && a.lanes[0].head + p < |a.lanes[0].slots|
    && Iterate(c, a, 0, p, STAY) == (s', p + 1)
  }

  lemma AliceStarts(c: Config)
    requires c == Config(1, 1, false)
    ensures Reaches(c, S0, ALICE, 0, S1)
  {
    Arrived(c, S0, ALICE, 0);
    assert S0.lanes[0].slots + [Slot(0, false)] == [Slot(0, false)];
    var a := ApplyEnv(c, S0, Emplace(0, OrderedTask(ALICE), 0));
    var s := Iterate(c, a, 0, 0, STAY).0;
    assert s.log == S1.log && s.tasks == S1.tasks && s.groups == S1.groups;
  }

  lemma BobIsKeptOut(c: Config)
    requires c == Config(1, 1, false)
    ensures Reaches(c, S1, BOB, 1, S2)
  {
    Arrived(c, S1, BOB, 1);
    assert S1.lanes[0].slots + [Slot(1, false)] == S2.lanes[0].slots;
    var a := ApplyEnv(c, S1, Emplace(0, OrderedTask(BOB), 1));
    var s := Iterate(c, a, 0, 1, STAY).0;
    assert s.log == S2.log && s.tasks == S2.tasks && s.groups == S2.groups;
  }

  lemma AliceArrivesAgain(c: Config)
    requires c == Config(1, 1, false)
    ensures ApplyEnv(c, S2, Emplace(0, OrderedTask(ALICE), 2))
            == S2.(lanes := S3.lanes, tasks := S2.tasks[2 := OrderedTask(ALICE)], born := S3.born)
  {
    Arrived(c, S2, ALICE, 2);
    assert S2.lanes[0].slots + [Slot(2, false)] == S3.lanes[0].slots;
  }

  lemma AliceReenters(c: Config)
    requires c == Config(1, 1, false)
    ensures Reaches(c, S2, ALICE, 2, S3)
  {
    AliceArrivesAgain(c);
    var a := ApplyEnv(c, S2, Emplace(0, OrderedTask(ALICE), 2));
    var s := Iterate(c, a, 0, 2, STAY).0;
    assert s.log == S3.log && s.tasks == S3.tasks && s.groups == S3.groups;
  }

  /**
   * Alice's task is active, Bob's is kept out, and Alice's next task is let in at once: with roots
   * shared inside a group, emplacement order is not start order.
   */
  lemma SharedRootOvertakes()
    ensures
      var script := [Arrival(ALICE, 0), Arrival(BOB, 1), Arrival(ALICE, 2)];
      Initial(S0) && !StartsInOrder(Execute(Config(1, 1, false), S0, [Poll(0, script)]))
  {
    var c := Config(1, 1, false);
    var script := [Arrival(ALICE, 0), Arrival(BOB, 1), Arrival(ALICE, 2)];
    AliceStarts(c);
    BobIsKeptOut(c);
    AliceReenters(c);
    ThreeIterations(c, S0, S1, S2, S3, script);
    OnePoll(c, S0, script);
    BobWasOvertaken();
  }

  lemma OnePoll(c: Config, s: State, script: seq<Choice>)
    requires |s.lanes| == 1
    ensures Execute(c, s, [Poll(0, script)]) == PassFrom(c, s, 0, 0, script).s
  {
    var polls := [Poll(0, script)];
    assert polls[1..] == [];
  }

  lemma BobWasOvertaken()
    ensures !StartsInOrder(S3)
  {
    assert S3.log[4] == Admitted(S3.lanes[0].slots[2].p);
    assert S3.lanes[0].slots[1].p == 1 && S3.born[1].locking;
    assert Admitted(1) !in S3.log[..4];
    assert Skips(S3, 0, 1, 2, 4);
  }

  lemma ThreeIterations(c: Config, s0: State, s1: State, s2: State, s3: State, script: seq<Choice>)
    requires |s0.lanes| == |s1.lanes| == |s2.lanes| == 1
    requires script == [Arrival(ALICE, 0), Arrival(BOB, 1), Arrival(ALICE, 2)]
    requires Reaches(c, s0, ALICE, 0, s1) && Reaches(c, s1, BOB, 1, s2) && Reaches(c, s2, ALICE, 2, s3)
    ensures PassFrom(c, s0, 0, 0, script).s == s3
  {
    OneArrival(c, s0, ALICE, 0);
    OneArrival(c, s1, BOB, 1);
    OneArrival(c, s2, ALICE, 2);
    var rest := script[1..];
    var last := rest[1..];
    assert rest[0] == Arrival(BOB, 1) && last[0] == Arrival(ALICE, 2) && last[1..] == [];
    assert PassFrom(c, s2, 0, 2, last).s == s3;
    assert PassFrom(c, s1, 0, 1, rest).s == s3;
  }
}
