/** Changing the queue and process scheduling policies from the admin lane. */
module Policy {
  import opened HrunTypes

  /**
   * One scheduler slot of the admin server: the current scheduler task, the flags of every scheduler
   * task made so far, who installed which, and for each scheduler the one it replaced.
   */
  datatype Slot = Slot(
    current: Option<nat>,
    flags: map<nat, set<Flag>>,
    installed: map<nat, nat>,
    replaced: map<nat, Option<nat>>)

  const EMPTY := Slot(None, map[], map[], map[])

  /** The two slots are driven by the same handler code. */
  datatype Server = Server(queue: Slot, proc: Slot)

  /** Poll of change `req` (not finished yet) with `id` as the task it may create, or of a scheduler task. */
  datatype SlotStep = PollChange(req: nat, id: nat) | PollSched(id: nat)

  datatype Step = OnQueue(st: SlotStep) | OnProc(st: SlotStep)

  predicate Live(s: Slot, id: nat) {
    id in s.flags && Complete !in s.flags[id]
  }

  function Handler(s: Slot, req: nat, id: nat): Slot {
    if s.current.Some? && s.current.value in s.flags then
      var cur := s.current.value;
      var marked := s.(flags := s.flags[cur := s.flags[cur] + {ModuleComplete}]);
      if Complete !in s.flags[cur] then marked else Install(marked, req, id)
    else
      Install(s, req, id)
  }

  function Install(s: Slot, req: nat, id: nat): Slot {
    s.(current := Some(id), flags := s.flags[id := {LongRunning, Unordered}],
       installed := s.installed[req := id], replaced := s.replaced[id := s.current])
  }

  function ApplySlot(s: Slot, st: SlotStep): Slot {
    match st
    case PollChange(req, id) => if req !in s.installed && id !in s.flags then Handler(s, req, id) else s
    case PollSched(id) =>
      if Live(s, id) && ModuleComplete in s.flags[id] then s.(flags := s.flags[id := s.flags[id] + {Complete}]) else s
  }

  function Apply(v: Server, st: Step): Server {
    match st
    case OnQueue(x) => v.(queue := ApplySlot(v.queue, x))
    case OnProc(x) => v.(proc := ApplySlot(v.proc, x))
  }

  function ApplySteps(v: Server, steps: seq<Step>): Server
    decreases steps
  {
    if steps == [] then v else ApplySteps(Apply(v, steps[0]), steps[1..])
  }

  ghost predicate SlotOk(s: Slot) {
    && (s.current.Some? ==> s.current.value in s.flags)
    && (forall id: nat | Live(s, id) :: s.current == Some(id))
    && (forall req | req in s.installed :: s.installed[req] in s.flags)
    && (forall a, b | a in s.installed && b in s.installed && a != b :: s.installed[a] != s.installed[b])
    && (forall id: nat | id in s.flags :: exists req :: req in s.installed && s.installed[req] == id)
    && s.replaced.Keys == s.flags.Keys
    && (forall id: nat | id in s.replaced && s.replaced[id].Some? ::
          s.replaced[id].value in s.flags && !Live(s, s.replaced[id].value))
    && (forall id: nat | id in s.flags :: {LongRunning, Unordered} <= s.flags[id])
    && (forall id: nat | id in s.flags && Complete in s.flags[id] :: ModuleComplete in s.flags[id])
  }

  lemma MarkOk(s: Slot, cur: nat)
    requires SlotOk(s) && s.current == Some(cur)
    ensures SlotOk(s.(flags := s.flags[cur := s.flags[cur] + {ModuleComplete}]))
  {
    var s' := s.(flags := s.flags[cur := s.flags[cur] + {ModuleComplete}]);
    assert forall id: nat :: Live(s', id) <==> Live(s, id);
    assert s'.flags.Keys == s.flags.Keys;
  }

  lemma InstallOwners(s: Slot, s': Slot, req: nat, id: nat)
    requires forall x: nat | x in s.flags :: exists r :: r in s.installed && s.installed[r] == x
    requires req !in s.installed && s' == Install(s, req, id)
    ensures forall x: nat | x in s'.flags :: exists r :: r in s'.installed && s'.installed[r] == x
  {
    forall x: nat | x in s'.flags ensures exists r :: r in s'.installed && s'.installed[r] == x {
      if x == id {
        assert req in s'.installed && s'.installed[req] == x;
      } else {
        var r :| r in s.installed && s.installed[r] == x;
        assert r in s'.installed && s'.installed[r] == x;
      }
    }
  }

  lemma InstallLives(s: Slot, s': Slot, req: nat, id: nat)
    requires forall x: nat :: !Live(s, x)
    requires s' == Install(s, req, id)
    ensures forall x: nat | Live(s', x) :: x == id
    ensures s.replaced.Keys == s.flags.Keys ==> s'.replaced.Keys == s'.flags.Keys
  {
    forall x: nat | Live(s', x) ensures x == id {
      assert !Live(s, x);
    }
  }

  lemma InstallOk(s: Slot, req: nat, id: nat)
    requires SlotOk(s) && req !in s.installed && id !in s.flags && forall x: nat :: !Live(s, x)
    ensures SlotOk(Install(s, req, id))
  {
    var s' := Install(s, req, id);
    InstallOwners(s, s', req, id);
    InstallLives(s, s', req, id);
    forall x: nat | x in s'.replaced && s'.replaced[x].Some?
      ensures s'.replaced[x].value in s'.flags && !Live(s', s'.replaced[x].value)
    {
      assert x != id ==> x in s.replaced;
    }
  }

  lemma SlotStepOk(s: Slot, st: SlotStep)
    requires SlotOk(s)
    ensures SlotOk(ApplySlot(s, st))
  {
    match st {
      case PollChange(req, id) =>
        if req !in s.installed && id !in s.flags {
          if s.current.Some? {
            var cur := s.current.value;
            MarkOk(s, cur);
            if Complete in s.flags[cur] {
              InstallOk(s.(flags := s.flags[cur := s.flags[cur] + {ModuleComplete}]), req, id);
            }
          } else {
            InstallOk(s, req, id);
          }
        }
      case PollSched(id) =>
        var s' := ApplySlot(s, st);
        assert s'.flags.Keys == s.flags.Keys;
    }
  }

  lemma {:induction false} RunOk(v: Server, steps: seq<Step>)
    requires SlotOk(v.queue) && SlotOk(v.proc)
    ensures SlotOk(ApplySteps(v, steps).queue) && SlotOk(ApplySteps(v, steps).proc)
    decreases steps
  {
    if steps != [] {
      match steps[0] {
        case OnQueue(x) => SlotStepOk(v.queue, x);
        case OnProc(x) => SlotStepOk(v.proc, x);
      }
      RunOk(Apply(v, steps[0]), steps[1..]);
    }
  }

  ghost predicate SlotGuarantee(s: Slot) {
    && (forall a: nat, b: nat | Live(s, a) && Live(s, b) :: a == b)
    && (forall a, b | a in s.installed && b in s.installed && a != b :: s.installed[a] != s.installed[b])
    && (forall id: nat | id in s.flags :: exists req :: req in s.installed && s.installed[req] == id)
    && (forall id: nat | id in s.flags :: LongRunning in s.flags[id] && Unordered in s.flags[id])
    && (forall id: nat | id in s.flags && Complete in s.flags[id] :: ModuleComplete in s.flags[id])
    && (forall req | req in s.installed ::
          && s.installed[req] in s.replaced
          && var before := s.replaced[s.installed[req]];
             before.Some? ==> before.value in s.flags && Complete in s.flags[before.value])
  }

  /**
   * Under any interleaving of policy changes and scheduler polls, of each kind at most one scheduler
   * task is live; every finished change installed exactly one scheduler, no two the same and none
   * from elsewhere; the scheduler it replaced is complete, and none completes without being told to.
   */
  lemma AtMostOneScheduler(steps: seq<Step>)
    ensures
      var v := ApplySteps(Server(EMPTY, EMPTY), steps);
      SlotGuarantee(v.queue) && SlotGuarantee(v.proc)
  {
    RunOk(Server(EMPTY, EMPTY), steps);
  }

  /** A change is finished, or it has told the current scheduler to stop and can only wait for it. */
  lemma ChangeWaitsOnlyForPredecessor(s: Slot, req: nat, id: nat)
    requires SlotOk(s) && req !in s.installed && id !in s.flags
    ensures
      var s' := ApplySlot(s, PollChange(req, id));
      || (req in s'.installed && s'.installed[req] == id && s'.current == Some(id) && Live(s', id))
      || (s.current.Some? && Live(s, s.current.value) && ModuleComplete in s'.flags[s.current.value]
          && s'.installed == s.installed && s'.current == s.current)
  {}

  /**
   * No change waits for ever: after its first poll, one poll of the scheduler that is still live and
   * the next poll of the change install its own scheduler in place of that one.
   */
  lemma ChangeNeedsTwoPolls(s: Slot, req: nat, id: nat)
    requires SlotOk(s) && req !in s.installed && id !in s.flags
    requires s.current.Some? && Live(s, s.current.value)
    ensures
      var cur := s.current.value;
      var done := ApplySlot(ApplySlot(ApplySlot(s, PollChange(req, id)), PollSched(cur)), PollChange(req, id));
      && done.installed == s.installed[req := id] && done.current == Some(id)
      && done.replaced == s.replaced[id := Some(cur)]
      && Live(done, id) && !Live(done, cur)
  {
    var cur := s.current.value;
    var asked := ApplySlot(s, PollChange(req, id));
    assert asked == s.(flags := s.flags[cur := s.flags[cur] + {ModuleComplete}]);
    var ended := ApplySlot(asked, PollSched(cur));
    assert ended == asked.(flags := asked.flags[cur := asked.flags[cur] + {Complete}]);
    assert cur != id;
  }

  /** The admin server's part: its scheduler pointer, and the tasks behind it. */
  class AdminServer {
    var current: Option<nat>
    var flags: map<nat, set<Flag>>
    var installed: map<nat, nat>
    var replaced: map<nat, Option<nat>>

    ghost function View(): Slot
      reads this
    {
      Slot(current, flags, installed, replaced)
    }

    constructor ()
      ensures View() == EMPTY
    {
      current, flags, installed, replaced := None, map[], map[], map[];
    }

    /** The handler of one policy change; `id` is the scheduler task it allocates if it gets that far. */
    method SetPolicy(req: nat, id: nat) returns (done: bool)
      requires current.Some? ==> current.value in flags
      modifies this
      ensures View() == Handler(old(View()), req, id)
      ensures done <==> (old(current).None? || Complete in old(flags)[old(current).value])
    {
      if current.Some? {
        flags := flags[current.value := flags[current.value] + {ModuleComplete}];
      }
      if current.Some? && Complete !in flags[current.value] {
        return false;
      }
      replaced := replaced[id := current];
      current := Some(id);
      flags := flags[id := {LongRunning, Unordered}];
      installed := installed[req := id];
      return true;
    }
  }
}
