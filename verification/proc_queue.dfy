/** The process queue: a push task that schedules its subtask, waits for it, and owns its memory. */
module ProcQueue {
  import opened HrunTypes

  datatype Phase = Schedule | WaitSchedule

  /**
   * A push and its subtask. `over`: the push's lane entry is complete. `emplaced`, `closed`: how many
   * lane entries the subtask was given, and how many of them its worker is done with. `dels`, `subDels`:
   * deletions. `fault`: freed memory was reached, or freed again.
   */
  datatype Pair = Pair(
    phase: Phase, flags: set<Flag>, over: bool, dels: nat,
    subFlags: set<Flag>, emplaced: nat, closed: nat, subDels: nat, fault: bool)

  /** Deleting a push runs its destructor, which deletes the subtask. */
  function DeletePush(s: Pair): Pair {
    s.(dels := s.dels + 1, subDels := s.subDels + 1, fault := s.fault || s.dels > 0 || s.subDels > 0)
  }

  /** What the Push method reads and writes. */
  datatype Fields = Fields(phase: Phase, flags: set<Flag>, subFlags: set<Flag>, emplaced: nat)

  /** The Push method: the first case falls through into the second. */
  function PushMethod(f: Fields): Fields {
    var f1 :=
      if f.phase == Schedule then
        f.(subFlags := f.subFlags - {FireAndForget}, emplaced := f.emplaced + 1, phase := WaitSchedule)
      else f;
    if Complete !in f1.subFlags then f1 else f1.(flags := f1.flags + {ModuleComplete})
  }

  function RunPush(s: Pair): Pair {
    var f := PushMethod(Fields(s.phase, s.flags, s.subFlags, s.emplaced));
    s.(phase := f.phase, flags := f.flags, subFlags := f.subFlags, emplaced := f.emplaced)
  }

  datatype Step = PollPush | PollSub(done: bool) | OwnerDelete

  function Apply(s: Pair, st: Step): Pair {
    match st
    case PollPush =>
      if s.over then s
      else
        var s1 := RunPush(s.(flags := s.flags + {HasStarted}, fault := s.fault || s.dels > 0 || s.subDels > 0));
        if ModuleComplete !in s1.flags then s1
        else if FireAndForget in s1.flags then DeletePush(s1.(over := true))
        else s1.(over := true, flags := s1.flags + {Complete})
    case PollSub(done) =>
      if s.closed >= s.emplaced then s
      else
        var s1 := s.(fault := s.fault || s.subDels > 0);
        if !done then s1
        else if FireAndForget in s1.subFlags then s1.(closed := s1.closed + 1, subDels := s1.subDels + 1)
        else s1.(closed := s1.closed + 1, subFlags := s1.subFlags + {ModuleComplete, Complete})
    case OwnerDelete =>
      if Complete in s.flags && s.dels == 0 then DeletePush(s) else s
  }

  function ApplySteps(s: Pair, steps: seq<Step>): Pair
    decreases steps
  {
    if steps == [] then s else ApplySteps(Apply(s, steps[0]), steps[1..])
  }

  predicate Initial(s: Pair) {
    && s.phase == Schedule && s.flags !! PROGRESS_FLAGS && s.subFlags !! PROGRESS_FLAGS
    && !s.over && s.dels == s.emplaced == s.closed == s.subDels == 0 && !s.fault
  }

  ghost predicate Inv(s: Pair) {
    && (s.phase == Schedule <==> s.emplaced == 0) && s.emplaced <= 1 && s.closed <= s.emplaced
    && (s.emplaced == 1 ==> FireAndForget !in s.subFlags)
    && (Complete in s.subFlags <==> s.closed == 1)
    && (ModuleComplete in s.flags <==> s.over) && (Complete in s.flags ==> s.over)
    && (s.over ==> s.closed == 1)
    && s.dels == s.subDels <= 1 && (s.dels == 1 ==> s.over)
    && (s.over && FireAndForget in s.flags ==> s.dels == 1 && Complete !in s.flags)
    && !s.fault
  }

  lemma {:induction false} RunInv(s: Pair, steps: seq<Step>)
    requires Inv(s)
    ensures Inv(ApplySteps(s, steps))
    decreases steps
  {
    if steps != [] {
      StepInv(s, steps[0]);
      RunInv(Apply(s, steps[0]), steps[1..]);
    }
  }

  lemma StepInv(s: Pair, st: Step)
    requires Inv(s)
    ensures Inv(Apply(s, st))
  {
    match st {
      case PollPush =>
      case PollSub(done) =>
      case OwnerDelete =>
    }
  }

  /**
   * However often the push is polled, and whatever flags the two tasks started with: the subtask is
   * emplaced at most once; the push completes only after the subtask did; push and subtask are deleted
   * together, at most once each, and only when neither has a lane entry a worker could still reach.
   */
  lemma PushLifetime(s0: Pair, steps: seq<Step>)
    requires Initial(s0)
    ensures
      var s := ApplySteps(s0, steps);
      && !s.fault
      && s.emplaced <= 1
      && (ModuleComplete in s.flags ==> Complete in s.subFlags && s.emplaced == s.closed == 1)
      && s.dels == s.subDels && s.dels <= 1
      && (s.dels == 1 ==> s.over && s.closed == s.emplaced)
  {
    assert Inv(s0);
    RunInv(s0, steps);
  }

  lemma {:induction false} EmplacedOnFirstPoll(s: Pair, steps: seq<Step>)
    requires Inv(s)
    ensures ApplySteps(s, steps).emplaced == if PollPush in steps || s.emplaced == 1 then 1 else 0
    decreases steps
  {
    if steps != [] {
      StepInv(s, steps[0]);
      EmplacedOnFirstPoll(Apply(s, steps[0]), steps[1..]);
      assert PollPush in steps <==> steps[0] == PollPush || PollPush in steps[1..];
    }
  }

  /**
   * What a poll of the push does, in every run: from the first one on the subtask has been emplaced,
   * exactly once, and is not fire-and-forget; the push ends in the very first poll that finds the
   * subtask complete, and in no other: deleted then if it is fire-and-forget, else published.
   */
  lemma PollsExactly(s0: Pair, steps: seq<Step>)
    requires Initial(s0)
    ensures
      var s, s' := ApplySteps(s0, steps), Apply(ApplySteps(s0, steps), PollPush);
      && s.emplaced == (if PollPush in steps then 1 else 0)
      && s'.emplaced == 1 && FireAndForget !in s'.subFlags
      && (s'.over <==> Complete in s.subFlags)
      && (ModuleComplete in s'.flags <==> Complete in s.subFlags)
      && (s'.over && FireAndForget in s'.flags ==> s'.dels == s'.subDels == 1 && Complete !in s'.flags)
      && (s'.over && FireAndForget !in s'.flags ==> Complete in s'.flags)
  {
    assert Inv(s0);
    RunInv(s0, steps);
    EmplacedOnFirstPoll(s0, steps);
    StepInv(ApplySteps(s0, steps), PollPush);
    RunPublished(s0, steps + [PollPush]);
    LastPoll(s0, steps);
  }

  lemma {:induction false} LastPoll(s: Pair, steps: seq<Step>)
    ensures ApplySteps(s, steps + [PollPush]) == Apply(ApplySteps(s, steps), PollPush)
    decreases steps
  {
    if steps == [] {
      assert [PollPush][1..] == [] && steps + [PollPush] == [PollPush];
    } else {
      assert (steps + [PollPush])[0] == steps[0] && (steps + [PollPush])[1..] == steps[1..] + [PollPush];
      LastPoll(Apply(s, steps[0]), steps[1..]);
    }
  }

  lemma {:induction false} RunPublished(s: Pair, steps: seq<Step>)
    requires Inv(s) && (s.over && FireAndForget !in s.flags ==> Complete in s.flags)
    ensures
      var s' := ApplySteps(s, steps);
      s'.over && FireAndForget !in s'.flags ==> Complete in s'.flags
    decreases steps
  {
    if steps != [] {
      StepInv(s, steps[0]);
      RunPublished(Apply(s, steps[0]), steps[1..]);
    }
  }

  /** The push task with the fields its Push method updates; the subtask is seen through its flags. */
  class PushTask {
    var phase: Phase
    var flags: set<Flag>
    var subFlags: set<Flag>
    var emplaced: nat

    ghost function View(): Fields
      reads this
    {
      Fields(phase, flags, subFlags, emplaced)
    }

    constructor (flags: set<Flag>, subFlags: set<Flag>)
      ensures View() == Fields(Schedule, flags, subFlags, 0)
    {
      phase, this.flags, this.subFlags, emplaced := Schedule, flags, subFlags, 0;
    }

    method Push()
      modifies this
      ensures View() == PushMethod(old(View()))
    {
      if phase == Schedule {
        if FireAndForget in subFlags {
          subFlags := subFlags - {FireAndForget};
        }
        assert subFlags == old(subFlags) - {FireAndForget};
        emplaced := emplaced + 1;
        phase := WaitSchedule;
      }
      if Complete !in subFlags {
        return;
      }
      flags := flags + {ModuleComplete};
    }
  }
}
