/** All nodes agree on the id of a name, and instantiate it at most once each. */
module NamingProofs {
  import opened HrunTypes
  import opened Naming

  ghost predicate RegistryOk(auto: iset<Name>, r: Registry, authority: Registry) {
    && (forall k | k in r.states :: !k.IsNull() && r.states[k].id == k)
    && (forall a | a in auto && a in r.ids :: a in authority.ids && r.ids[a] == authority.ids[a])
    && (forall k | k in r.states && r.states[k].name in auto ::
          r.states[k].name in authority.ids && k == authority.ids[r.states[k].name] && r.states[k].name in r.ids)
  }

  /** Ids handed out by the authority are its own, already counted, and never shared by two names. */
  ghost predicate AuthorityOk(auto: iset<Name>, r: Registry) {
    && r.node == AUTHORITY
    && (forall a | a in auto && a in r.ids :: r.ids[a].node == AUTHORITY && r.ids[a].unique < r.unique)
    && (forall a, b | a in auto && a in r.ids && b in auto && b in r.ids && a != b :: r.ids[a] != r.ids[b])
  }

  ghost predicate RequestOk(auto: iset<Name>, r: Request, authority: Registry) {
    r.name in auto ==>
      && r.given == NULL_ID
      && (r.phase.HasId? ==> r.name in authority.ids && r.phase.id == authority.ids[r.name])
      && (r.phase.Done? ==> r.name in authority.ids && r.phase.result == authority.ids[r.name])
  }

  ghost predicate MadeOk(auto: iset<Name>, w: World)
    requires AUTHORITY in w.nodes
  {
    forall m, a | a in auto && w.made[(m, a)] > 0 ::
      && w.made[(m, a)] == 1 && m in w.nodes && a in w.nodes[AUTHORITY].ids
      && w.nodes[AUTHORITY].ids[a] in w.nodes[m].states
  }

  ghost predicate Inv(auto: iset<Name>, w: World) {
    && AUTHORITY in w.nodes && AuthorityOk(auto, w.nodes[AUTHORITY])
    && (forall m | m in w.nodes :: w.nodes[m].node == m && RegistryOk(auto, w.nodes[m], w.nodes[AUTHORITY]))
    && (forall q | q in w.requests :: RequestOk(auto, w.requests[q], w.nodes[AUTHORITY]))
    && MadeOk(auto, w)
  }

  /** Before any request: the names of `auto` are unknown everywhere; anything else may exist already. */
  ghost predicate Initial(auto: iset<Name>, w: World) {
    && AUTHORITY in w.nodes && w.requests == map[] && w.made == multiset{}
    && forall m | m in w.nodes ::
         && w.nodes[m].node == m
         && (forall a | a in w.nodes[m].ids :: a !in auto)
         && (forall k | k in w.nodes[m].states ::
               !k.IsNull() && w.nodes[m].states[k].id == k && w.nodes[m].states[k].name !in auto)
  }

  // ---------------------------------------------------------------- the authority hands out an id

  lemma GetOrCreateOk(auto: iset<Name>, r: Registry, name: Name)
    requires AuthorityOk(auto, r)
    ensures
      var (r', id) := GetOrCreateId(r, name);
      && AuthorityOk(auto, r') && name in r'.ids && r'.ids[name] == id
      && (forall a | a in r.ids :: a in r'.ids && r'.ids[a] == r.ids[a])
      && r'.states == r.states
  {}

  /** Growing the authority's bindings disturbs nobody. */
  lemma AuthorityGrew(auto: iset<Name>, w: World, w': World, r': Registry)
    requires Inv(auto, w) && w'.nodes == w.nodes[AUTHORITY := r'] && w'.made == w.made && AuthorityOk(auto, r')
    requires r'.states == w.nodes[AUTHORITY].states
    requires forall a | a in w.nodes[AUTHORITY].ids :: a in r'.ids && r'.ids[a] == w.nodes[AUTHORITY].ids[a]
    requires forall q | q in w'.requests :: RequestOk(auto, w'.requests[q], r')
    ensures Inv(auto, w')
  {
    forall m | m in w'.nodes ensures w'.nodes[m].node == m && RegistryOk(auto, w'.nodes[m], w'.nodes[AUTHORITY]) {
      assert RegistryOk(auto, w.nodes[m], w.nodes[AUTHORITY]);
    }
  }

  lemma OldRequestsOk(auto: iset<Name>, w: World, q: nat, r': Registry)
    requires Inv(auto, w) && q in w.requests
    requires forall a | a in w.nodes[AUTHORITY].ids :: a in r'.ids && r'.ids[a] == w.nodes[AUTHORITY].ids[a]
    ensures RequestOk(auto, w.requests[q], r')
  {
    assert RequestOk(auto, w.requests[q], w.nodes[AUTHORITY]);
  }

  lemma AuthorityStep(auto: iset<Name>, w: World, q: nat, w': World)
    requires Inv(auto, w) && w' == Apply(auto, w, Authority(q))
    ensures Inv(auto, w')
  {
    if q in w.requests && w.requests[q].phase == AskId {
      var name := w.requests[q].name;
      GetOrCreateOk(auto, w.nodes[AUTHORITY], name);
      var r' := GetOrCreateId(w.nodes[AUTHORITY], name).0;
      assert RequestOk(auto, w.requests[q], w.nodes[AUTHORITY]);
      forall x | x in w'.requests ensures RequestOk(auto, w'.requests[x], r') {
        OldRequestsOk(auto, w, x, r');
      }
      AuthorityGrew(auto, w, w', r');
    }
  }

  lemma ClientStep(auto: iset<Name>, w: World, name: Name, w': World)
    requires Inv(auto, w) && w' == Apply(auto, w, ClientGetOrCreate(name))
    ensures Inv(auto, w')
  {
    GetOrCreateOk(auto, w.nodes[AUTHORITY], name);
    var r' := GetOrCreateId(w.nodes[AUTHORITY], name).0;
    forall x | x in w'.requests ensures RequestOk(auto, w'.requests[x], r') {
      OldRequestsOk(auto, w, x, r');
    }
    AuthorityGrew(auto, w, w', r');
  }

  lemma TickStep(auto: iset<Name>, w: World, node: u32, w': World)
    requires Inv(auto, w) && w' == Apply(auto, w, Tick(node))
    ensures Inv(auto, w')
  {
    if node in w.nodes {
      forall m | m in w'.nodes ensures w'.nodes[m].node == m && RegistryOk(auto, w'.nodes[m], w'.nodes[AUTHORITY]) {
        assert RegistryOk(auto, w.nodes[m], w.nodes[AUTHORITY]);
      }
      forall x | x in w'.requests ensures RequestOk(auto, w'.requests[x], w'.nodes[AUTHORITY]) {
        OldRequestsOk(auto, w, x, w'.nodes[AUTHORITY]);
      }
    }
  }

  // ---------------------------------------------------------------- requests

  lemma LookUpStep(auto: iset<Name>, w: World, q: nat, w': World)
    requires Inv(auto, w) && w' == Apply(auto, w, LookUp(q))
    ensures Inv(auto, w')
  {
    if q in w.requests && w.requests[q].node in w.nodes {
      assert RequestOk(auto, w.requests[q], w.nodes[AUTHORITY]);
      assert RegistryOk(auto, w.nodes[w.requests[q].node], w.nodes[AUTHORITY]);
    }
  }

  lemma AskStep(auto: iset<Name>, w: World, st: Step, w': World)
    requires Inv(auto, w) && st.Ask? && w' == Apply(auto, w, st)
    ensures Inv(auto, w')
  {}

  lemma CreateStep(auto: iset<Name>, w: World, q: nat, built: bool, w': World)
    requires Inv(auto, w) && w' == Apply(auto, w, Create(q, built))
    ensures Inv(auto, w')
  {
    if q in w.requests && w.requests[q].phase.HasId? && w.requests[q].node in w.nodes {
      var r := w.requests[q];
      var m := r.node;
      assert RequestOk(auto, r, w.nodes[AUTHORITY]) && RegistryOk(auto, w.nodes[m], w.nodes[AUTHORITY]);
      if w'.nodes[m] == w.nodes[m] {
        assert w'.nodes == w.nodes;
        assert forall x | x in w'.requests :: RequestOk(auto, w'.requests[x], w.nodes[AUTHORITY]);
      } else {
        Instantiated(auto, w, q, built, w');
      }
    }
  }

  lemma Instantiated(auto: iset<Name>, w: World, q: nat, built: bool, w': World)
    requires Inv(auto, w) && w' == Apply(auto, w, Create(q, built))
    requires q in w.requests && w.requests[q].phase.HasId? && w.requests[q].node in w.nodes
    requires
      var r := w.requests[q];
      var reg := w.nodes[r.node];
      var id := r.phase.id;
      && built && !id.IsNull() && r.lib in reg.libs && id !in reg.states
    ensures Inv(auto, w')
  {
    var r := w.requests[q];
    var m := r.node;
    var reg' := w'.nodes[m];
    var id := r.phase.id;
    assert RequestOk(auto, r, w.nodes[AUTHORITY]) && RegistryOk(auto, w.nodes[m], w.nodes[AUTHORITY]);
    assert id in reg'.states && w'.nodes == w.nodes[m := reg'];
    assert w'.made == w.made + multiset{(m, r.name)};
    AuthorityKept(auto, w, r, m, reg');
    var auth' := w'.nodes[AUTHORITY];
    forall x | x in w'.nodes ensures w'.nodes[x].node == x && RegistryOk(auto, w'.nodes[x], auth') {
      assert RegistryOk(auto, w.nodes[x], w.nodes[AUTHORITY]);
    }
    forall x | x in w'.requests ensures RequestOk(auto, w'.requests[x], auth') {
      assert RequestOk(auto, w.requests[x], w.nodes[AUTHORITY]);
    }
    InstantiatedMade(auto, w, w', m, r.name, id);
  }

  /** The new instance is the first of its name on its node. */
  lemma InstantiatedMade(auto: iset<Name>, w: World, w': World, m: u32, name: Name, id: StateId)
    requires AUTHORITY in w.nodes && AUTHORITY in w'.nodes && MadeOk(auto, w) && m in w.nodes && m in w'.nodes
    requires w'.made == w.made + multiset{(m, name)} && w'.nodes.Keys == w.nodes.Keys
    requires id !in w.nodes[m].states && id in w'.nodes[m].states
    requires name in auto ==> name in w.nodes[AUTHORITY].ids && id == w.nodes[AUTHORITY].ids[name]
    requires forall x, k | x in w.nodes && k in w.nodes[x].states :: k in w'.nodes[x].states
    requires forall a | a in auto && a in w.nodes[AUTHORITY].ids ::
               a in w'.nodes[AUTHORITY].ids && w'.nodes[AUTHORITY].ids[a] == w.nodes[AUTHORITY].ids[a]
    ensures MadeOk(auto, w')
  {
    if name in auto {
      assert w.made[(m, name)] == 0;
    }
  }

  /** Instantiating binds a name of `auto` nowhere it was not bound by the authority. */
  lemma AuthorityKept(auto: iset<Name>, w: World, r: Request, m: u32, reg': Registry)
    requires Inv(auto, w) && m in w.nodes && r.phase.HasId? && RequestOk(auto, r, w.nodes[AUTHORITY])
    requires reg' == CreateState(w.nodes[m], r.lib, r.name, r.phase.id, true)
    ensures
      var auth, auth' := w.nodes[AUTHORITY], w.nodes[m := reg'][AUTHORITY];
      && AuthorityOk(auto, auth') && auth'.unique == auth.unique
      && (forall a | a in auto ::
            (a in auth'.ids <==> a in auth.ids) && (a in auth.ids ==> auth'.ids[a] == auth.ids[a]))
  {}

  // ---------------------------------------------------------------- runs

  lemma StepInv(auto: iset<Name>, w: World, st: Step, w': World)
    requires Inv(auto, w) && w' == Apply(auto, w, st)
    ensures Inv(auto, w')
  {
    match st {
      case Ask(_, _, _, _, _) => AskStep(auto, w, st, w');
      case LookUp(q) => LookUpStep(auto, w, q, w');
      case Authority(q) => AuthorityStep(auto, w, q, w');
      case Create(q, built) => CreateStep(auto, w, q, built, w');
      case ClientGetOrCreate(name) => ClientStep(auto, w, name, w');
      case Tick(node) => TickStep(auto, w, node, w');
    }
  }

  /** The run `steps` leads from `w` to `w'`, every state on the way having an authority. */
  ghost predicate Leads(auto: iset<Name>, w: World, steps: seq<Step>, w': World)
    decreases steps
  {
    if steps == [] then w' == w
    else AUTHORITY in w.nodes && Leads(auto, Apply(auto, w, steps[0]), steps[1..], w')
  }

  lemma {:induction false} RunInv(auto: iset<Name>, w: World, steps: seq<Step>, w': World)
    requires Inv(auto, w) && Leads(auto, w, steps, w')
    ensures Inv(auto, w')
    decreases steps
  {
    if steps != [] {
      var w1 := Apply(auto, w, steps[0]);
      StepInv(auto, w, steps[0], w1);
      RunInv(auto, w1, steps[1..], w');
    }
  }

  /**
   * For a name requested only with null ids, in every run: all nodes that bind it agree with node 1;
   * every finished request returns that one non-null id, so the last reply to be loaded is any reply;
   * each node instantiates it at most once and only under that id, and a node that has an instance binds the
   * name to it; and no other such name has that id.
   */
  lemma NodesAgreeOnNames(auto: iset<Name>, w0: World, steps: seq<Step>, w: World, a: Name)
    requires Initial(auto, w0) && Leads(auto, w0, steps, w) && a in auto
    ensures AUTHORITY in w.nodes
    ensures
      var ids := w.nodes[AUTHORITY].ids;
      && (forall m | m in w.nodes && a in w.nodes[m].ids :: a in ids && w.nodes[m].ids[a] == ids[a])
      && (forall q | q in w.requests && w.requests[q].name == a && w.requests[q].phase.Done? ::
            a in ids && w.requests[q].phase.result == ids[a] && !ids[a].IsNull())
      && (forall m: u32 :: w.made[(m, a)] <= 1)
      && (forall m, k | m in w.nodes && k in w.nodes[m].states && w.nodes[m].states[k].name == a ::
            a in ids && k == ids[a] && a in w.nodes[m].ids && w.nodes[m].ids[a] == ids[a])
      && (forall b | b in auto && b != a && a in ids && b in ids :: ids[b] != ids[a])
  {
    RunInv(auto, w0, steps, w);
    forall q | q in w.requests && w.requests[q].name == a && w.requests[q].phase.Done?
      ensures a in w.nodes[AUTHORITY].ids && w.requests[q].phase.result == w.nodes[AUTHORITY].ids[a]
    {
      assert RequestOk(auto, w.requests[q], w.nodes[AUTHORITY]);
    }
    forall m | m in w.nodes ensures RegistryOk(auto, w.nodes[m], w.nodes[AUTHORITY]) {}
    forall m: u32 ensures w.made[(m, a)] <= 1 {
      if w.made[(m, a)] > 0 { assert w.made[(m, a)] == 1; }
    }
  }

  // ---------------------------------------------------------------- creation binds

  /**
   * A state created under a new id for a name that was not bound is from then on what every lookup by
   * that name finds, with a null id or any other; an id given for an unbound name is looked up itself;
   * and no other name or id is affected.
   */
  lemma CreatedIsFound(r: Registry, lib: string, name: Name, id: StateId, other: Name, given: StateId)
    requires !id.IsNull() && lib in r.libs && id !in r.states && name !in r.ids && other != name && given != id
    ensures
      var r' := CreateState(r, lib, name, id, true);
      && name in r'.ids && r'.ids[name] == id
      && FindState(r', name, NULL_ID) == Some(Instance(id, name))
      && FindState(r', name, given) == Some(Instance(id, name))
      && (other !in r.ids ==> FindState(r', other, id) == Some(Instance(id, name)))
      && (given in r.states ==> given in r'.states && r'.states[given] == r.states[given])
      && (other in r.ids <==> other in r'.ids) && (other in r.ids ==> r'.ids[other] == r.ids[other])
  {}

  /** Creating under a name that is bound already leaves the binding, and with it what a lookup of the name finds. */
  lemma BindingKept(r: Registry, lib: string, name: Name, id: StateId, built: bool, given: StateId)
    requires name in r.ids && !r.ids[name].IsNull() && r.ids[name] in r.states
    ensures
      var r' := CreateState(r, lib, name, id, built);
      && name in r'.ids && r'.ids[name] == r.ids[name]
      && FindState(r', name, given) == FindState(r, name, given) == Some(r.states[r.ids[name]])
  {}

  /** Nothing is created from a null id, an unknown library, or a constructor that fails; nothing is replaced. */
  lemma NotCreated(r: Registry, lib: string, name: Name, id: StateId, built: bool)
    requires id.node == 0 || lib !in r.libs || id in r.states || !built
    ensures CreateState(r, lib, name, id, built) == r
  {}

  /**
   * In every run: when a request for a name that is only asked for with null ids gets to create it, with
   * its library there and a constructor that works, a lookup by name alone on that node afterwards finds
   * this name's instance under node 1's id, if and only if no instance of another name sits on that id.
   */
  lemma CreatedStateIsFoundByName(auto: iset<Name>, w0: World, steps: seq<Step>, w: World, q: nat, w': World)
    requires Initial(auto, w0) && Leads(auto, w0, steps, w) && AUTHORITY in w.nodes
    requires q in w.requests && w.requests[q].name in auto && w.requests[q].phase.HasId?
    requires w.requests[q].node in w.nodes && w.requests[q].lib in w.nodes[w.requests[q].node].libs
    requires w' == Apply(auto, w, Create(q, true))
    ensures
      var r := w.requests[q];
      var id := r.phase.id;
      var before := w.nodes[r.node].states;
      && r.name in w.nodes[AUTHORITY].ids && id == w.nodes[AUTHORITY].ids[r.name] && r.node in w'.nodes
      && (FindState(w'.nodes[r.node], r.name, NULL_ID) == Some(Instance(id, r.name))
          <==> id !in before || before[id].name == r.name)
  {
    RunInv(auto, w0, steps, w);
    var r := w.requests[q];
    assert RequestOk(auto, r, w.nodes[AUTHORITY]) && RegistryOk(auto, w.nodes[r.node], w.nodes[AUTHORITY]);
    CreatedHere(auto, w.nodes[r.node], w'.nodes[r.node], w.nodes[AUTHORITY], r, r.phase.id);
  }

  lemma CreatedHere(auto: iset<Name>, reg: Registry, reg': Registry, authority: Registry, r: Request, id: StateId)
    requires r.name in auto && r.lib in reg.libs && !id.IsNull()
    requires reg' == if id in reg.states then reg else CreateState(reg, r.lib, r.name, id, true)
    requires r.name in authority.ids && authority.ids[r.name] == id && RegistryOk(auto, reg, authority)
    ensures FindState(reg', r.name, NULL_ID) == Some(Instance(id, r.name))
            <==> id !in reg.states || reg.states[id].name == r.name
  {}

  // ---------------------------------------------------------------- requests finish

  /** A request with an id of its own never asks node 1: its state is created under that id. */
  lemma GivenIdIsUsed(auto: iset<Name>, w: World, q: nat, r: Request)
    requires AUTHORITY in w.nodes && q in w.requests && r == w.requests[q] && r.phase == Start && r.node in w.nodes
    requires !r.given.IsNull() && r.lib in w.nodes[r.node].libs && FindState(w.nodes[r.node], r.name, r.given).None?
    requires r.given !in w.nodes[r.node].states
    ensures
      var w' := Apply(auto, Apply(auto, w, LookUp(q)), Create(q, true));
      && w'.requests[q].phase == Done(r.given) && r.node in w'.nodes
      && r.given in w'.nodes[r.node].states && w'.nodes[r.node].states[r.given] == Instance(r.given, r.name)
  {
    var w1 := Apply(auto, w, LookUp(q));
    assert w1 == w.(requests := w.requests[q := r.(phase := HasId(r.given))]);
  }

  /** The three steps of one request, in their order; a step that is not due does nothing. */
  function ThreeSteps(auto: iset<Name>, w: World, q: nat, built: bool): World
    requires AUTHORITY in w.nodes
  {
    var w1 := Apply(auto, w, LookUp(q));
    var w2 := if AUTHORITY in w1.nodes then Apply(auto, w1, Authority(q)) else w1;
    if AUTHORITY in w2.nodes then Apply(auto, w2, Create(q, built)) else w2
  }

  /** Where a node already finds the name, a new request ends at once with that instance's id; no registry changes. */
  lemma ExistingStateIsReturned(auto: iset<Name>, w: World, q: nat, x: Instance)
    requires AUTHORITY in w.nodes && q in w.requests && w.requests[q].phase == Start && w.requests[q].node in w.nodes
    requires FindState(w.nodes[w.requests[q].node], w.requests[q].name, w.requests[q].given) == Some(x)
    ensures
      var w' := Apply(auto, w, LookUp(q));
      && w'.requests[q].phase == Done(x.id) && w'.nodes == w.nodes && w'.made == w.made
      && forall p | p in w.requests && p != q :: p in w'.requests && w'.requests[p] == w.requests[p]
  {}

  /**
   * In every run, a request for a name asked for with null ids that has not finished is finished by at
   * most three steps of its own, with node 1's id; its node then has an instance under that id if its
   * library is known and the constructor works.
   */
  lemma RequestFinishes(auto: iset<Name>, w0: World, steps: seq<Step>, w: World, q: nat, built: bool)
    requires Initial(auto, w0) && Leads(auto, w0, steps, w) && AUTHORITY in w.nodes
    requires q in w.requests && w.requests[q].name in auto && w.requests[q].node in w.nodes
    ensures
      var w' := ThreeSteps(auto, w, q, built);
      var r := w.requests[q];
      && AUTHORITY in w'.nodes && r.node in w'.nodes && r.name in w'.nodes[AUTHORITY].ids && q in w'.requests
      && w'.requests[q].phase == Done(w'.nodes[AUTHORITY].ids[r.name])
      && (!r.phase.Done? && built && r.lib in w.nodes[r.node].libs ==>
            w'.nodes[AUTHORITY].ids[r.name] in w'.nodes[r.node].states)
  {
    RunInv(auto, w0, steps, w);
    var w1 := Apply(auto, w, LookUp(q));
    LookUpStep(auto, w, q, w1);
    var w2 := Apply(auto, w1, Authority(q));
    AuthorityStep(auto, w1, q, w2);
    var w3 := Apply(auto, w2, Create(q, built));
    CreateStep(auto, w2, q, built, w3);
    ThreeStepsEnd(auto, w, w1, w2, w3, q, built);
    assert RequestOk(auto, w3.requests[q], w3.nodes[AUTHORITY]);
  }

  lemma ThreeStepsEnd(auto: iset<Name>, w: World, w1: World, w2: World, w3: World, q: nat, built: bool)
    requires Inv(auto, w) && w1 == Apply(auto, w, LookUp(q)) && Inv(auto, w1)
    requires w2 == Apply(auto, w1, Authority(q)) && Inv(auto, w2) && w3 == Apply(auto, w2, Create(q, built))
    requires q in w.requests && w.requests[q].name in auto && w.requests[q].node in w.nodes
    ensures
      var r := w.requests[q];
      && r.node in w3.nodes && q in w3.requests && w3.requests[q].phase.Done? && w3.requests[q].name == r.name
      && (!r.phase.Done? && built && r.lib in w.nodes[r.node].libs ==>
            w3.requests[q].phase.result in w3.nodes[r.node].states)
  {
    LookedUp(auto, w, q, w1);
    Asked(auto, w1, q, w2);
    Finished(auto, w2, q, built, w3);
  }

  lemma LookedUp(auto: iset<Name>, w: World, q: nat, w': World)
    requires Inv(auto, w) && q in w.requests && w.requests[q].node in w.nodes && w' == Apply(auto, w, LookUp(q))
    requires w.requests[q].name in auto
    ensures w'.nodes == w.nodes && q in w'.requests && w'.requests[q] == w.requests[q].(phase := w'.requests[q].phase)
    ensures !w'.requests[q].phase.Start?
    ensures w.requests[q].phase.Start? && w'.requests[q].phase.Done? ==>
              w'.requests[q].phase.result in w.nodes[w.requests[q].node].states
    ensures !w.requests[q].phase.Start? ==> w'.requests[q].phase == w.requests[q].phase
  {
    var r := w.requests[q];
    assert RegistryOk(auto, w.nodes[r.node], w.nodes[AUTHORITY]);
  }

  lemma Asked(auto: iset<Name>, w: World, q: nat, w': World)
    requires AUTHORITY in w.nodes && q in w.requests && !w.requests[q].phase.Start?
    requires w.requests[q].node in w.nodes && w' == Apply(auto, w, Authority(q))
    ensures q in w'.requests && w'.requests[q] == w.requests[q].(phase := w'.requests[q].phase)
    ensures w.requests[q].phase.AskId? ==> w'.requests[q].phase.HasId?
    ensures !w.requests[q].phase.AskId? ==> w'.requests[q].phase == w.requests[q].phase
    ensures w.requests[q].node in w'.nodes
    ensures w'.nodes[w.requests[q].node].states == w.nodes[w.requests[q].node].states
    ensures w'.nodes[w.requests[q].node].libs == w.nodes[w.requests[q].node].libs
  {}

  lemma Finished(auto: iset<Name>, w: World, q: nat, built: bool, w': World)
    requires Inv(auto, w) && q in w.requests && w.requests[q].name in auto && w.requests[q].node in w.nodes
    requires (w.requests[q].phase.HasId? || w.requests[q].phase.Done?) && w' == Apply(auto, w, Create(q, built))
    ensures q in w'.requests && w'.requests[q].phase.Done? && w.requests[q].node in w'.nodes
    ensures w'.requests[q].name == w.requests[q].name
    ensures w.requests[q].phase.HasId? && built && w.requests[q].lib in w.nodes[w.requests[q].node].libs ==>
              w'.requests[q].phase.result in w'.nodes[w.requests[q].node].states
    ensures w.requests[q].phase.Done? ==> w' == w
  {
    assert RequestOk(auto, w.requests[q], w.nodes[AUTHORITY]);
  }
}
