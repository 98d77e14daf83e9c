/** A round's machine together with its dump: created, reloaded through the pool, and driven. */
module Instances {
  import opened Names
  import opened Payloads
  import opened Ceremony
  import opened NodeStep
  import opened Tables
  import opened TableFacts
  import opened Engine
  import opened EngineFacts
  import opened RoundState
  import opened Machines
  import P = Pool

  // ---------------------------------------------------------------- the pool of the three machines

  ghost predicate IsProvider(p: P.Provider, id: MachineId) {
    p.name == MachineName(id) && TableOf(p.table, id)
  }

  lemma ProviderStates(p: P.Provider, id: MachineId, s: State)
    requires IsProvider(p, id)
    ensures s in P.StatesList(p.table) <==> Owner(s) == Some(id)
  {
    hide TableOf, Owner, MachineName;
    StatesAreSources(p.table, id, s);
  }

  lemma ProviderEvents(p: P.Provider, id: MachineId, e: Event)
    requires IsProvider(p, id)
    ensures e in P.EventsList(p.table) ==> MachineOf(e) == id
  {
    hide TableOf, MachineOf, MachineName, Row;
    if e in P.EventsList(p.table) {
      var k :| k in p.table.transitions && k.1 == e;
      EdgesAreUnion(p.table, id, k.0, e);
    }
  }

  lemma ProviderEntry(p: P.Provider, id: MachineId)
    requires IsProvider(p, id)
    ensures P.GlobalInitialEvent(p.table) == if id == ProposalMachine then InitProposal else NoEvent
  {
    var t := p.table;
    EdgesAreUnion(t, id, GlobalIdle, t.initialEvent);
    hide HoldsTransitions, HoldsAutos, IsSource, Destinations, DkgRows, SigningRows, Callbacks;
    RowOwner(GlobalIdle, t.initialEvent);
    if id == ProposalMachine {
      assert HasSource(ProposalRows()[0], GlobalIdle);
    }
  }

  lemma ProvidersApart(a: P.Provider, i: MachineId, b: P.Provider, j: MachineId)
    requires IsProvider(a, i) && IsProvider(b, j) && i != j
    ensures P.Separate(a, b) && P.StatesList(a.table) !! P.StatesList(b.table)
  {
    hide TableOf, P.StatesList, P.EventsList, P.GlobalInitialEvent;
    forall s
      ensures s in P.StatesList(a.table) ==> s !in P.StatesList(b.table)
    {
      ProviderStates(a, i, s);
      ProviderStates(b, j, s);
    }
    forall e
      ensures e in P.EventsList(a.table) ==> e !in P.EventsList(b.table)
    {
      ProviderEvents(a, i, e);
      ProviderEvents(b, j, e);
    }
    ProviderEntry(a, i);
    ProviderEntry(b, j);
    NamesApart(i, j);
  }

  lemma NamesApart(i: MachineId, j: MachineId)
    ensures MachineName(i) == MachineName(j) <==> i == j
  {
    assert |MachineName(ProposalMachine)| == 22 && |MachineName(DkgMachine)| == 16
           && |MachineName(SigningMachine)| == 20;
  }

  ghost predicate Three(ms: seq<P.Provider>) {
    |ms| == 3 && IsProvider(ms[0], ProposalMachine) && IsProvider(ms[1], DkgMachine)
    && IsProvider(ms[2], SigningMachine)
  }

  // The three machines can share a pool.
  lemma ThreeFit(ms: seq<P.Provider>)
    requires Three(ms)
    ensures P.Poolable(ms)
  {
    hide IsProvider, P.Separate, P.StatesList, P.GlobalInitialEvent;
    ProvidersApart(ms[0], ProposalMachine, ms[1], DkgMachine);
    ProvidersApart(ms[0], ProposalMachine, ms[2], SigningMachine);
    ProvidersApart(ms[1], DkgMachine, ms[2], SigningMachine);
    ProviderEntry(ms[0], ProposalMachine);
    ProviderNamed(ms[0], ProposalMachine);
    ProviderNamed(ms[1], DkgMachine);
    ProviderNamed(ms[2], SigningMachine);
    assert ms == [ms[0], ms[1], ms[2]];
  }

  lemma ProviderNamed(p: P.Provider, id: MachineId)
    requires IsProvider(p, id)
    ensures p.name != "" && p.name == MachineName(id)
  {
    Named(id);
  }

  function Position(id: MachineId): nat {
    match id
    case ProposalMachine => 0
    case DkgMachine => 1
    case SigningMachine => 2
  }

  // The pool resumes a state with its owner, and no other state.
  lemma PoolFinds(pool: P.FsmPool, ms: seq<P.Provider>, s: State)
    requires Three(ms)
    requires P.Serves(pool, ms)
    ensures Owner(s).Some? ==> P.MachineByState(pool, s) == Some(ms[Position(Owner(s).value)])
    ensures Owner(s).None? ==> P.MachineByState(pool, s) == None
  {
    hide IsProvider, P.Serves, P.StatesList, P.MachineByState, P.Poolable, Owner;
    ThreeFit(ms);
    P.FindsOwner(pool, ms, s);
    ProviderStates(ms[0], ProposalMachine, s);
    ProviderStates(ms[1], DkgMachine, s);
    ProviderStates(ms[2], SigningMachine, s);
    assert ms == [ms[0], ms[1], ms[2]];
  }

  lemma PoolEnters(pool: P.FsmPool, ms: seq<P.Provider>)
    requires Three(ms)
    requires P.Serves(pool, ms)
    ensures P.EntryPoint(pool) == Some(ms[0])
  {
    hide P.StatesList, TableOf;
    var t := ms[0].table;
    ProviderEntry(ms[0], ProposalMachine);
    assert ms[0] in ms;
    assert (GlobalIdle, InitProposal) in t.transitions;
    assert InitProposal in P.EventsList(t);
  }

  // ---------------------------------------------------------------- instances

  class Instance {
    var machine: Machine
    var round: Round
    var dumpState: State

    ghost predicate Valid()
      reads this, machine
    {
      machine.Valid() && machine.round == round
    }

    // The machine owns the dumped state and stands at it.
    ghost predicate Ready()
      reads this, machine
    {
      Valid() && machine.currentState == dumpState && Owns(machine.id, dumpState)
    }

    ghost function Dump(): Inst
      reads this, round
    {
      Inst(dumpState, round.payload)
    }

    constructor (m: Machine, r: Round, s: State)
      ensures machine == m && round == r && dumpState == s
    {
      machine, round, dumpState := m, r, s;
    }

    // Runs an event and keeps the state of its response, which is empty when a callback failed.
    method Do(e: Event, r: Request) returns (resp: Option<Response>, err: Option<Error>)
      requires Ready()
      modifies this, machine, round
      ensures Valid() && machine == old(machine) && round == old(round)
      ensures err.None? ==> Ceremony.Do(old(dumpState), old(round.payload), e, r).Moved?
      ensures err.None? ==>
                var res := Ceremony.Do(old(dumpState), old(round.payload), e, r);
                && Dump() == Inst(res.state, res.payload) && machine.currentState == res.state
                && resp == Some(Response(res.state, res.data))
      ensures err.Some? ==> Ceremony.Do(old(dumpState), old(round.payload), e, r) == Rejected(err.value)
    {
      hide TableOf, Owns, Drive, Ceremony.Do, DoTold;
      MachinesAreTheUnion(machine.table, machine.id, machine.currentState, round.payload, e, r);
      ghost var spec := Ceremony.Do(dumpState, round.payload, e, r);
      resp, err := machine.Do(e, r);
      if resp.Some? {
        ToldSays(spec, resp.value, err, machine.currentState, round.payload);
        dumpState := resp.value.state;
      }
    }
  }

  lemma ToldSays(spec: DoResult, resp: Response, err: Option<Error>, s: State, p: Payload)
    requires DoTold(spec, resp, err, s, p)
    ensures err.None? ==> spec.Moved? && spec.state == s && spec.payload == p && resp == Response(spec.state, spec.data)
    ensures err.Some? ==> spec == Rejected(err.value)
  {
  }

  // The three machines, sharing a payload, in a pool.
  method NewPool(round: Round) returns (machines: seq<Machine>, providers: seq<P.Provider>, pool: P.FsmPool)
    ensures |machines| == 3 && |providers| == 3
    ensures forall m | m in machines :: fresh(m) && m.round == round
    ensures machines[0].id == ProposalMachine && machines[1].id == DkgMachine && machines[2].id == SigningMachine
    ensures forall k | 0 <= k < 3 :: providers[k] == P.Provider(MachineName(machines[k].id), machines[k].table)
    ensures forall m | m in machines :: m.Valid()
    ensures P.Serves(pool, providers) && Three(providers)
  {
    hide TableOf, P.Serves, P.Poolable, MachineName;
    var a := new Machine(ProposalMachine, round);
    var b := new Machine(DkgMachine, round);
    var c := new Machine(SigningMachine, round);
    machines := [a, b, c];
    providers := [P.Provider(MachineName(a.id), a.table), P.Provider(MachineName(b.id), b.table),
      P.Provider(MachineName(c.id), c.table)];
    ThreeFit(providers);
    var p := P.Init(providers);
    pool := p.value;
  }

  // The machine of a name among the three.
  function Pick(machines: seq<Machine>, name: string): (m: Machine)
    requires |machines| == 3
    ensures m in machines
  {
    if name == MachineName(machines[0].id) then machines[0]
    else if name == MachineName(machines[1].id) then machines[1] else machines[2]
  }

  // A new round, at the entry of the pool.
  method Create(dkgId: string) returns (i: Option<Instance>)
    ensures i.Some? <==> TrimSpace(dkgId) != ""
    ensures i.Some? ==>
              && fresh(i.value) && fresh(i.value.machine) && fresh(i.value.round)
              && i.value.Ready() && i.value.Dump() == Inst(GlobalIdle, EmptyPayload(TrimSpace(dkgId)))
  {
    hide TableOf, P.Serves, TrimSpace, MachineName, Owner, Three;
    var id := TrimSpace(dkgId);
    if id == "" {
      return None;
    }
    var round := new Round(EmptyPayload(id));
    var machines, providers, pool := NewPool(round);
    PoolEnters(pool, providers);
    IdleOwner();
    var machine := Pick(machines, P.EntryPoint(pool).value.name);
    assert machine == machines[0] && machine in machines;
    var ok := machine.WithSetup(GlobalIdle, round);
    var inst := new Instance(machine, round, GlobalIdle);
    return Some(inst);
  }

  lemma IdleOwner()
    ensures Owner(GlobalIdle) == Some(ProposalMachine)
  {
  }

  lemma NoOwner()
    ensures Owner(NoState) == None
  {
  }

  // Reloads a dump; only the states that some machine leaves can be resumed.
  method FromDump(d: Inst) returns (i: Option<Instance>)
    ensures i.Some? <==> Routable(d.state)
    ensures i.Some? ==>
              && fresh(i.value) && fresh(i.value.machine) && fresh(i.value.round)
              && i.value.Ready() && i.value.Dump() == d
  {
    hide TableOf, P.Serves, MachineName, Owner, Routable, P.MachineByState, IsProvider;
    var round := new Round(d.payload);
    var machines, providers, pool := NewPool(round);
    PoolFinds(pool, providers, d.state);
    SourcesAreDisjoint(ProposalMachine, d.state);
    NamesApart(ProposalMachine, DkgMachine);
    NamesApart(ProposalMachine, SigningMachine);
    NamesApart(DkgMachine, SigningMachine);
    var provider := P.MachineByState(pool, d.state);
    if provider.None? {
      return None;
    }
    var machine := Pick(machines, provider.value.name);
    assert machine in machines && Owner(d.state) == Some(machine.id);
    var ok := machine.WithSetup(d.state, round);
    NoOwner();
    var inst := new Instance(machine, round, d.state);
    return Some(inst);
  }
}
