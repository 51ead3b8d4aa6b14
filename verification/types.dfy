/** Identifiers, scheduling domains and task flags shared by every part of the runtime. */
module HrunTypes {

  const U32_LIMIT := 0x1_0000_0000

  type u32 = x: int | 0 <= x < 0x1_0000_0000

  /** Identifies a task, a task state or a queue; node 0 is reserved for the null id. */
  datatype UniqueId = UniqueId(node: u32, hash: u32, unique: nat) {
    predicate IsNull() {
      node == 0
    }

    /** Identity looks at the node and the counter only: the hash takes no part. */
    predicate Same(other: UniqueId) {
      unique == other.unique && node == other.node
    }
  }

  datatype Option<+T> = None | Some(value: T)

  datatype DomainFlag = KLocal | KGlobal | KSet | KNode

  datatype DomainId = DomainId(flags: set<DomainFlag>, id: u32) {
    predicate IsGlobal() {
      KGlobal in flags
    }

    predicate IsNode() {
      KNode in flags
    }

    /** Must a task with this domain leave node `thisNode` of a deployment of `numHosts` hosts? */
    predicate IsRemote(numHosts: nat, thisNode: u32) {
      if numHosts == 1 then
        false
      else
        KGlobal in flags || KSet in flags || (KNode in flags && id != thisNode)
    }
  }

  function NodeDomain(node: u32): DomainId {
    DomainId({KNode}, node)
  }

  function GlobalDomain(): DomainId {
    DomainId({KGlobal}, 0)
  }

  function LocalDomain(): DomainId {
    DomainId({KLocal}, 0)
  }

  /** The bits of `task_flags_` the runtime reacts to. Masks are sets of bits. */
  datatype Flag =
    | Unordered
    | HasStarted
    | Complete
    | ModuleComplete
    | LongRunning
    | FireAndForget
    | DisableRun
    | DataOwner
    | Marked
    | Coroutine
    | Preemptive

  /** TASK_LONG_RUNNING covers two bits, so clearing it also clears the unordered bit. */
  const LONG_RUNNING_MASK: set<Flag> := {LongRunning, Unordered}

  /** What a worker must not find set on a task it sees for the first time. */
  const PROGRESS_FLAGS: set<Flag> := {HasStarted, Complete, ModuleComplete, DisableRun}

  /** There is always a number not in use yet. */
  lemma {:induction false} Unused(keys: set<nat>) returns (h: nat)
    ensures forall k | k in keys :: k < h
    decreases keys
  {
    h := 0;
    if keys != {} {
      var x :| x in keys;
      var below := Unused(keys - {x});
      h := if below > x then below else x + 1;
      forall k | k in keys ensures k < h {
        assert k == x || k in keys - {x};
      }
    }
  }
}
