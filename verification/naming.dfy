/** The task registry, and the creation of named task states across nodes with node 1 as id authority. */
module Naming {
  import opened HrunTypes

  type Name = string

  datatype StateId = StateId(node: u32, unique: nat) {
    predicate IsNull() {
      node == 0
    }
  }

  const NULL_ID := StateId(0, 0)

  datatype Instance = Instance(id: StateId, name: Name)

  /** One node's registry: names to ids, ids to instances, and the counter ids are drawn from. */
  datatype Registry = Registry(
    node: u32, ids: map<Name, StateId>, states: map<StateId, Instance>, libs: set<string>, unique: nat)

  function GetOrCreateId(r: Registry, name: Name): (Registry, StateId) {
    if name in r.ids then
      (r, r.ids[name])
    else
      var id := StateId(r.node, r.unique);
      (r.(ids := r.ids[name := id], unique := r.unique + 1), id)
  }

  /** Lookup by name, and by the given id only when the name is not bound. */
  function FindState(r: Registry, name: Name, id: StateId): Option<Instance> {
    var bound := if name in r.ids then r.ids[name] else NULL_ID;
    var key := if bound.IsNull() then id else bound;
    if key in r.states then Some(r.states[key]) else None
  }

  /**
   * Instantiate `name` under `id`; an existing binding of the name is not overwritten. `built` says
   * whether the library's constructor returns an instance.
   */
  function CreateState(r: Registry, lib: string, name: Name, id: StateId, built: bool): Registry {
    if id.IsNull() || lib !in r.libs || id in r.states || !built then
      r
    else
      r.(ids := if name in r.ids then r.ids else r.ids[name := id], states := r.states[id := Instance(id, name)])
  }

  class TaskRegistry {
    const node: u32
    var taskStateIds: map<Name, StateId>
    var taskStates: map<StateId, Instance>
    var libs: set<string>
    var unique: nat

    ghost function View(): Registry
      reads this
    {
      Registry(node, taskStateIds, taskStates, libs, unique)
    }

    constructor (node: u32)
      ensures View() == Registry(node, map[], map[], {}, 0)
    {
      this.node := node;
      taskStateIds, taskStates, libs, unique := map[], map[], {}, 0;
    }

    method CreateTaskStateId() returns (id: StateId)
      modifies `unique
      ensures id == StateId(node, old(unique)) && unique == old(unique) + 1
    {
      id := StateId(node, unique);
      unique := unique + 1;
    }

    method GetOrCreateTaskStateId(name: Name) returns (id: StateId)
      modifies this
      ensures (View(), id) == GetOrCreateId(old(View()), name)
    {
      if name !in taskStateIds {
        id := CreateTaskStateId();
        taskStateIds := taskStateIds[name := id];
        return;
      }
      id := taskStateIds[name];
    }

    method GetTaskState(name: Name, id: StateId) returns (found: Option<Instance>)
      ensures found == FindState(View(), name, id)
    {
      var key := if name in taskStateIds then taskStateIds[name] else NULL_ID;
      if key.IsNull() {
        key := id;
      }
      found := if key in taskStates then Some(taskStates[key]) else None;
    }

    /** `ok` is false when nothing can be instantiated: null id, unknown library, or a failed constructor. */
    method CreateTaskState(lib: string, name: Name, id: StateId, built: bool) returns (ok: bool)
      modifies this
      ensures View() == CreateState(old(View()), lib, name, id, built)
      ensures ok == (!id.IsNull() && lib in old(libs) && (id in old(taskStates) || built))
      ensures ok ==> id in taskStates
    {
      if id.IsNull() || lib !in libs {
        return false;
      }
      if id in taskStates {
        return true;
      }
      if !built {
        return false;
      }
      if name !in taskStateIds {
        taskStateIds := taskStateIds[name := id];
      }
      taskStates := taskStates[id := Instance(id, name)];
      return true;
    }
  }

  // ---------------------------------------------------------------- creation across nodes

  /** How far a CreateTaskState request got; it yields between AskId and HasId. */
  datatype Phase = Start | AskId | HasId(id: StateId) | Done(result: StateId)

  datatype Request = Request(node: u32, name: Name, lib: string, given: StateId, phase: Phase)

  /** `made` counts instantiations per node and name. */
  datatype World = World(nodes: map<u32, Registry>, requests: map<nat, Request>, made: multiset<(u32, Name)>)

  datatype Step =
    | Ask(q: nat, node: u32, name: Name, lib: string, given: StateId)
    | LookUp(q: nat)
    | Authority(q: nat)
    | Create(q: nat, built: bool)
    | ClientGetOrCreate(name: Name)
    | Tick(node: u32)

  const AUTHORITY: u32 := 1

  /**
   * One atomic step. Names in `auto` are only ever requested with a null id; other names may come
   * with any id. Requests for ids go to node 1 alone.
   */
  function Apply(auto: iset<Name>, w: World, st: Step): World
    requires AUTHORITY in w.nodes
  {
    match st
    case Ask(q, node, name, lib, given) =>
      if q !in w.requests && node in w.nodes then
        w.(requests := w.requests[q := Request(node, name, lib, if name in auto then NULL_ID else given, Start)])
      else w

    case LookUp(q) =>
      if q in w.requests && w.requests[q].phase == Start && w.requests[q].node in w.nodes then
        var r := w.requests[q];
        var found := FindState(w.nodes[r.node], r.name, r.given);
        var phase := if found.Some? then Done(found.value.id) else if r.given.IsNull() then AskId else HasId(r.given);
        w.(requests := w.requests[q := r.(phase := phase)])
      else w

    case Authority(q) =>
      if q in w.requests && w.requests[q].phase == AskId then
        var (reg, id) := GetOrCreateId(w.nodes[AUTHORITY], w.requests[q].name);
        w.(nodes := w.nodes[AUTHORITY := reg], requests := w.requests[q := w.requests[q].(phase := HasId(id))])
      else w

    case Create(q, built) =>
      if q in w.requests && w.requests[q].phase.HasId? && w.requests[q].node in w.nodes then
        var r := w.requests[q];
        var id := r.phase.id;
        var reg := w.nodes[r.node];
        var reg' := if id.IsNull() || id in reg.states then reg else CreateState(reg, r.lib, r.name, id, built);
        w.(nodes := w.nodes[r.node := reg'],
           requests := w.requests[q := r.(phase := Done(id))],
           made := if reg'.states != reg.states then w.made + multiset{(r.node, r.name)} else w.made)
      else w

    case ClientGetOrCreate(name) =>
      w.(nodes := w.nodes[AUTHORITY := GetOrCreateId(w.nodes[AUTHORITY], name).0])

    case Tick(node) =>
      if node in w.nodes then w.(nodes := w.nodes[node := w.nodes[node].(unique := w.nodes[node].unique + 1)]) else w
  }
}
