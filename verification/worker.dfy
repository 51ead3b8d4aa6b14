/** The worker as the object it is: fields updated in place, one method per source function. */
module WorkerObject {
  import opened HrunTypes
  import opened WorkerModel

  class Worker {
    const config: Config
    var lanes: seq<Lane>
    var tasks: map<Ptr, Task>
    var groupMap: map<u32, GroupNode>
    var born: map<Ptr, Birth>
    var log: seq<Event>
    var reclaimed: set<Ptr>
    var fault: bool

    ghost function View(): State
      reads this
    {
      State(lanes, tasks, groupMap, born, log, reclaimed, fault)
    }

    constructor (config: Config, laneIds: seq<u32>)
      ensures this.config == config
      ensures Initial(View()) && |lanes| == |laneIds|
      ensures forall i | 0 <= i < |laneIds| :: lanes[i].laneId == laneIds[i]
    {
      this.config := config;
      lanes := seq(|laneIds|, i requires 0 <= i < |laneIds| => Lane(laneIds[i], [], 0));
      tasks, groupMap, born, log, reclaimed, fault := map[], map[], map[], [], {}, false;
    }

    method CheckTaskGroup(t: Task, laneId: u32) returns (admit: bool)
      modifies `groupMap
      ensures (admit, groupMap) == WorkerModel.CheckTaskGroup(config, old(groupMap), t, laneId)
    {
      if Remote(config, t) || HasStarted in t.flags {
        return true;
      }
      if GetGroup(t) == TASK_UNORDERED || Unordered in t.flags {
        return true;
      }
      if laneId !in groupMap {
        groupMap := groupMap[laneId := GroupNode(t.root, 1)];
        return true;
      }
      var node := groupMap[laneId];
      if node.root.Same(t.root) {
        groupMap := groupMap[laneId := node.(depth := (node.depth + 1) % U32_LIMIT)];
        return true;
      }
      return false;
    }

    method RemoveTaskGroup(t: Task, laneId: u32)
      modifies `groupMap, `fault
      ensures
        var r := WorkerModel.RemoveTaskGroup(config, old(groupMap), t, laneId);
        && groupMap == (if r.Some? then r.value else old(groupMap))
        && fault == (old(fault) || r.None?)
    {
      if Remote(config, t) {
        return;
      }
      if GetGroup(t) == TASK_UNORDERED || Unordered in t.flags {
        return;
      }
      var depth := if laneId in groupMap then groupMap[laneId].depth else 0;
      if depth == 0 {
        fault := true;
        return;
      }
      if depth - 1 == 0 {
        groupMap := groupMap - {laneId};
      } else {
        groupMap := groupMap[laneId := groupMap[laneId].(depth := depth - 1)];
      }
    }

    method PopTask(l: nat, off: nat) returns (off': nat)
      requires l < |lanes|
      modifies `lanes
      ensures lanes == old(lanes)[l := WorkerModel.PopTask(old(lanes[l]), off).0]
      ensures off' == WorkerModel.PopTask(old(lanes[l]), off).1
    {
      if off == 0 {
        lanes := lanes[l := lanes[l].(head := lanes[l].head + 1)];
        off' := 0;
      } else {
        off' := off + 1;
      }
    }

    /** Completion of the task in the slot under the cursor. */
    method EndTask(l: nat, off: nat, p: Ptr) returns (off': nat)
      requires l < |lanes| && lanes[l].head + off < |lanes[l].slots| && p in tasks
      modifies this
      ensures (View(), off') == WorkerModel.EndTask(config, old(View()), l, off, p)
    {
      var t := tasks[p];
      var pos := lanes[l].head + off;
      lanes := lanes[l := lanes[l].(slots := lanes[l].slots[pos := lanes[l].slots[pos].(complete := true)])];
      if Coroutine in t.flags {
        fault := fault || !t.hasStack;
        log := log + [Unstacked(p)];
      }
      RemoveTaskGroup(t, lanes[l].laneId);
      off' := PopTask(l, off);
      if FireAndForget in t.flags {
        tasks := tasks - {p};
      } else {
        tasks := tasks[p := t.(flags := t.flags + {ModuleComplete, Complete}, hasStack := false)];
      }
      log := log + [Ended(p)];
      ghost var s := old(View());
      assert lanes == s.lanes[l := lanes[l]];
      assert log == s.log + (if Coroutine in t.flags then [Unstacked(p)] else []) + [Ended(p)];
    }

    /** Execute or schedule a task that was let in. */
    method Dispatch(p: Ptr, eff: Effect)
      requires p in tasks
      modifies `tasks, `log
      ensures tasks == old(tasks)[p := WorkerModel.Dispatch(config, old(tasks[p]), eff)]
      ensures log == old(log) + (if MakesStack(config, old(tasks[p])) then [Stacked(p)] else [])
                     + (if Remote(config, old(tasks[p])) then [Dispersed(p)] else [])
    {
      var t := tasks[p];
      if Remote(config, t) {
        log := log + [Dispersed(p)];
        tasks := tasks[p := t.(flags := t.flags + {DisableRun} - {Coroutine})];
      } else if Coroutine in t.flags {
        if HasStarted !in t.flags {
          log := log + [Stacked(p)];
        }
        tasks := tasks[p := RunBody(t.(flags := t.flags + {HasStarted}, hasStack := true), eff)];
      } else if Preemptive in t.flags {
        tasks := tasks[p := t.(flags := t.flags + {DisableRun})];
      } else {
        tasks := tasks[p := RunBody(t.(flags := t.flags + {HasStarted}), eff)];
      }
    }

    /** Attempt to run the task if it is ready and runnable. */
    method TryRun(l: nat, p: Ptr, eff: Effect)
      requires l < |lanes| && p in tasks
      modifies this
      ensures View() == AdmitTask(config, old(View()), l, p, eff)
    {
      var laneId := lanes[l].laneId;
      var t := tasks[p].(laneId := laneId);
      tasks := tasks[p := t];
      log := log + [Touched(p)];
      if DisableRun in t.flags {
        return;
      }
      var admit := CheckTaskGroup(t, laneId);
      if !admit {
        return;
      }
      if Locking(config, t) && HasStarted !in t.flags {
        log := log + [Admitted(p)];
      }
      Dispatch(p, eff);
      assert tasks == old(tasks)[p := WorkerModel.Dispatch(config, t, eff)];
    }

    /** Other threads' steps between two iterations. */
    method Interfere(env: seq<EnvStep>)
      modifies this
      ensures View() == ApplyAll(config, old(View()), env)
    {
      var i := 0;
      while i < |env|
        invariant 0 <= i <= |env|
        invariant ApplyAll(config, View(), env[i..]) == ApplyAll(config, old(View()), env)
      {
        var s := ApplyEnv(config, State(lanes, tasks, groupMap, born, log, reclaimed, fault), env[i]);
        assert env[i..][1..] == env[i + 1..];
        lanes, tasks, groupMap, born := s.lanes, s.tasks, s.groups, s.born;
        log, reclaimed, fault := s.log, s.reclaimed, s.fault;
        i := i + 1;
      }
    }

    /** The body of the poll loop, for the slot `off` places behind the head. */
    method PollSlot(l: nat, off: nat, eff: Effect) returns (off': nat)
      requires l < |lanes| && lanes[l].head + off < |lanes[l].slots|
      modifies this
      ensures (View(), off') == Iterate(config, old(View()), l, off, eff)
    {
      var slot := lanes[l].slots[lanes[l].head + off];
      if slot.complete {
        off' := PopTask(l, off);
      } else if slot.p !in tasks {
        fault := true;
        off' := off + 1;
      } else {
        TryRun(l, slot.p, eff);
        if ModuleComplete in tasks[slot.p].flags {
          off' := EndTask(l, off, slot.p);
        } else {
          off' := off + 1;
        }
      }
    }

    /** One pass over lane `l`; `script` supplies what the worker cannot see, iteration by iteration. */
    method PollGrouped(l: nat, script: seq<Choice>)
      requires l < |lanes| && |script| == 1024
      modifies this
      ensures View() == PassFrom(config, old(View()), l, 0, script).s
    {
      var off := 0;
      for i := 0 to MAX_ITERATIONS
        invariant |lanes| == |old(lanes)|
        invariant PassFrom(config, View(), l, off, script[i..]).s == PassFrom(config, old(View()), l, 0, script).s
      {
        assert script[i..][0] == script[i] && script[i..][1..] == script[i + 1..];
        Interfere(script[i].env);
        if lanes[l].head + off >= |lanes[l].slots| {
          return;
        }
        off := PollSlot(l, off, script[i].eff);
      }
    }
  }
}
