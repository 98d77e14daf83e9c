/** The pool that finds, for a dumped state, the machine that resumes it. */
module Pool {
  import opened Collections
  import opened Names
  import opened Tables

  // A machine as the pool sees it.
  datatype Provider = Provider(name: string, table: Table)

  datatype FsmPool = FsmPool(
    entry: Event, mapper: map<string, Provider>, events: map<Event, string>, states: map<State, string>)

  // The events of a machine that may come from outside, and the states it leaves.
  function EventsList(t: Table): set<Event> {
    set k | k in t.transitions && !t.transitions[k].isInternal :: k.1
  }

  function StatesList(t: Table): set<State> {
    set k | k in t.transitions :: k.0
  }

  // The event that enters the whole pool, if this machine has it.
  function GlobalInitialEvent(t: Table): Event {
    if (GlobalIdle, t.initialEvent) in t.transitions && !t.transitions[(GlobalIdle, t.initialEvent)].isInternal
    then t.initialEvent else NoEvent
  }

  // Two machines share no name, no outside event and no entry to the pool.
  predicate Separate(a: Provider, b: Provider) {
    && a.name != b.name
    && EventsList(a.table) !! EventsList(b.table)
    && (GlobalInitialEvent(a.table) == NoEvent || GlobalInitialEvent(b.table) == NoEvent)
  }

  ghost predicate Distinct(ms: seq<Provider>) {
    && (forall m | m in ms :: m.name != "")
    && (forall i, j | 0 <= i < j < |ms| :: Separate(ms[i], ms[j]))
  }

  ghost predicate Disjoint(ms: seq<Provider>) {
    forall i, j | 0 <= i < j < |ms| :: StatesList(ms[i].table) !! StatesList(ms[j].table)
  }

  ghost predicate Poolable(ms: seq<Provider>) {
    Distinct(ms) && Disjoint(ms) && exists m :: m in ms && GlobalInitialEvent(m.table) != NoEvent
  }

  // The pool knows every machine by its name, its outside events and its source states.
  ghost predicate Serves(p: FsmPool, ms: seq<Provider>) {
    && (forall m | m in ms :: m.name in p.mapper && p.mapper[m.name] == m)
    && (forall m, e | m in ms && e in EventsList(m.table) :: e in p.events && p.events[e] == m.name)
    && (forall m, s | m in ms && s in StatesList(m.table) :: s in p.states && p.states[s] == m.name)
    && (forall s | s in p.states :: exists m :: m in ms && s in StatesList(m.table))
    && (forall m | m in ms && GlobalInitialEvent(m.table) != NoEvent :: p.entry == GlobalInitialEvent(m.table))
    && "" !in p.mapper
  }

  function MachineByState(p: FsmPool, s: State): Option<Provider> {
    var name := if s in p.states then p.states[s] else "";
    if name in p.mapper then Some(p.mapper[name]) else None
  }

  function EntryPoint(p: FsmPool): Option<Provider> {
    var name := if p.entry in p.events then p.events[p.entry] else "";
    if name in p.mapper then Some(p.mapper[name]) else None
  }

  // ---------------------------------------------------------------- filling the pool

  // Each key gets an owner; a key that has one already is refused.
  method Claim<K(!new)>(keys: set<K>, name: string, owners: map<K, string>) returns (r: Option<map<K, string>>)
    ensures r.Some? <==> keys !! owners.Keys
    ensures r.Some? ==> r.value == owners + map k | k in keys :: name
  {
    hide Claiming;
    var todo, now := keys, owners;
    ghost var done: set<K> := {};
    ClaimingNone(name, owners);
    while todo != {}
      invariant Claiming(done, name, owners, now) && todo + done == keys && todo !! done
      decreases |todo|
    {
      ghost var some := SomeOf(todo);
      var k :| k in todo;
      ClaimingMore(keys, done, name, owners, now, k);
      if k in now {
        return None;
      }
      now := now[k := name];
      todo, done := todo - {k}, done + {k};
    }
    assert done == keys;
    Claimed(keys, name, owners, now);
    return Some(now);
  }

  ghost predicate Claiming<K(!new)>(done: set<K>, name: string, owners: map<K, string>, now: map<K, string>) {
    && done !! owners.Keys && now.Keys == owners.Keys + done
    && forall k | k in now :: now[k] == if k in done then name else owners[k]
  }

  lemma ClaimingNone<K(!new)>(name: string, owners: map<K, string>)
    ensures Claiming({}, name, owners, owners)
  {
  }

  lemma ClaimingMore<K(!new)>(keys: set<K>, done: set<K>, name: string, owners: map<K, string>, now: map<K, string>,
      k: K)
    requires Claiming(done, name, owners, now) && k in keys && k !in done
    ensures k in now ==> !(keys !! owners.Keys)
    ensures k !in now ==> Claiming(done + {k}, name, owners, now[k := name])
  {
  }

  lemma Claimed<K(!new)>(keys: set<K>, name: string, owners: map<K, string>, now: map<K, string>)
    requires Claiming(keys, name, owners, now)
    ensures keys !! owners.Keys && now == owners + map k | k in keys :: name
  {
  }

  // What the pool knows after the first round over some machines.
  ghost predicate Known(ms: seq<Provider>, p: FsmPool) {
    Distinct(ms) && KnowsNames(ms, p.mapper) && KnowsEvents(ms, p.events) && KnowsEntry(ms, p.entry)
  }

  ghost predicate KnowsNames(ms: seq<Provider>, mapper: map<string, Provider>) {
    && (forall m | m in ms :: m.name in mapper && mapper[m.name] == m)
    && (forall name | name in mapper :: exists m :: m in ms && m.name == name)
  }

  ghost predicate KnowsEvents(ms: seq<Provider>, events: map<Event, string>) {
    && (forall m, e | m in ms && e in EventsList(m.table) :: e in events && events[e] == m.name)
    && (forall e | e in events :: exists m :: m in ms && e in EventsList(m.table))
  }

  ghost predicate KnowsEntry(ms: seq<Provider>, entry: Event) {
    && (forall m | m in ms && GlobalInitialEvent(m.table) != NoEvent :: entry == GlobalInitialEvent(m.table))
    && (entry != NoEvent ==> exists m :: m in ms && GlobalInitialEvent(m.table) != NoEvent)
  }

  // What it knows after the second.
  ghost predicate Placed(ms: seq<Provider>, states: map<State, string>) {
    && Disjoint(ms)
    && (forall m, s | m in ms && s in StatesList(m.table) :: s in states && states[s] == m.name)
    && (forall s | s in states :: exists m :: m in ms && s in StatesList(m.table))
  }

  predicate Fits(p: FsmPool, m: Provider) {
    && m.name != "" && m.name !in p.mapper && EventsList(m.table) !! p.events.Keys
    && (p.entry == NoEvent || GlobalInitialEvent(m.table) == NoEvent)
  }

  lemma DistinctMore(ms: seq<Provider>, p: FsmPool, m: Provider)
    requires Known(ms, p)
    ensures Distinct(ms + [m]) <==> Fits(p, m)
  {
    hide EventsList, GlobalInitialEvent;
    var more := ms + [m];
    assert more[|ms|] == m;
    assert forall i | 0 <= i < |ms| :: more[i] == ms[i] && ms[i] in ms;
    if Distinct(more) {
      assert forall i | 0 <= i < |ms| :: Separate(more[i], more[|ms|]);
      assert m in more;
      forall k | k in ms
        ensures Separate(k, m)
      {
        var i :| 0 <= i < |ms| && ms[i] == k;
      }
    }
    if Fits(p, m) {
      forall k | k in ms
        ensures Separate(k, m)
      {
        assert forall e | e in EventsList(k.table) :: e in p.events;
      }
    }
  }

  lemma NamesMore(ms: seq<Provider>, mapper: map<string, Provider>, m: Provider)
    requires KnowsNames(ms, mapper) && m.name !in mapper
    ensures KnowsNames(ms + [m], mapper[m.name := m])
  {
    var more, after := ms + [m], mapper[m.name := m];
    assert m in more && forall k | k in ms :: k in more;
    forall name | name in after
      ensures exists k :: k in more && k.name == name
    {
      if name in mapper {
        var k :| k in ms && k.name == name;
        assert k in more;
      }
    }
  }

  lemma EventsMore(ms: seq<Provider>, events: map<Event, string>, m: Provider)
    requires KnowsEvents(ms, events) && EventsList(m.table) !! events.Keys
    ensures KnowsEvents(ms + [m], events + map e | e in EventsList(m.table) :: m.name)
  {
    hide EventsList;
    var more, after := ms + [m], events + map e | e in EventsList(m.table) :: m.name;
    assert m in more && forall k | k in ms :: k in more;
    forall e | e in after
      ensures exists k :: k in more && e in EventsList(k.table)
    {
      if e in events {
        var k :| k in ms && e in EventsList(k.table);
        assert k in more;
      }
    }
  }

  lemma EntryMore(ms: seq<Provider>, entry: Event, m: Provider)
    requires KnowsEntry(ms, entry) && (entry == NoEvent || GlobalInitialEvent(m.table) == NoEvent)
    ensures KnowsEntry(ms + [m], if GlobalInitialEvent(m.table) != NoEvent then GlobalInitialEvent(m.table) else entry)
  {
    hide GlobalInitialEvent;
    var more := ms + [m];
    assert m in more && forall k | k in ms :: k in more;
    if entry != NoEvent {
      var k :| k in ms && GlobalInitialEvent(k.table) != NoEvent;
      assert k in more;
    }
  }

  lemma KnownMore(ms: seq<Provider>, p: FsmPool, m: Provider, q: FsmPool)
    requires Known(ms, p) && Fits(p, m)
    requires q.mapper == p.mapper[m.name := m] && q.events == p.events + map e | e in EventsList(m.table) :: m.name
    requires q.entry == if GlobalInitialEvent(m.table) != NoEvent then GlobalInitialEvent(m.table) else p.entry
    ensures Known(ms + [m], q)
  {
    hide EventsList, GlobalInitialEvent, Distinct, KnowsNames, KnowsEvents, KnowsEntry;
    DistinctMore(ms, p, m);
    NamesMore(ms, p.mapper, m);
    EventsMore(ms, p.events, m);
    EntryMore(ms, p.entry, m);
  }

  lemma DisjointMore(ms: seq<Provider>, states: map<State, string>, m: Provider)
    requires Placed(ms, states)
    ensures Disjoint(ms + [m]) <==> StatesList(m.table) !! states.Keys
  {
    hide StatesList;
    var more := ms + [m];
    assert more[|ms|] == m;
    assert forall i | 0 <= i < |ms| :: more[i] == ms[i] && ms[i] in ms;
    if StatesList(m.table) !! states.Keys {
      forall k | k in ms
        ensures StatesList(k.table) !! StatesList(m.table)
      {
        assert forall s | s in StatesList(k.table) :: s in states;
      }
    } else {
      var s :| s in StatesList(m.table) && s in states;
      var k :| k in ms && s in StatesList(k.table);
      var i :| 0 <= i < |ms| && ms[i] == k;
      assert !(StatesList(more[i].table) !! StatesList(more[|ms|].table));
    }
  }

  lemma PlacedMore(ms: seq<Provider>, states: map<State, string>, m: Provider)
    requires Placed(ms, states) && StatesList(m.table) !! states.Keys
    ensures Placed(ms + [m], states + map s | s in StatesList(m.table) :: m.name)
  {
    hide StatesList, Disjoint;
    DisjointMore(ms, states, m);
    var more, after := ms + [m], states + map s | s in StatesList(m.table) :: m.name;
    assert m in more && forall k | k in ms :: k in more;
    forall s | s in after
      ensures exists k :: k in more && s in StatesList(k.table)
    {
      if s in states {
        var k :| k in ms && s in StatesList(k.table);
        assert k in more;
      }
    }
  }

  lemma Prefixes(ms: seq<Provider>, k: nat)
    requires k <= |ms|
    ensures Distinct(ms) ==> Distinct(ms[..k])
    ensures Disjoint(ms) ==> Disjoint(ms[..k])
  {
    hide Separate, StatesList;
    assert forall m | m in ms[..k] :: m in ms;
    assert forall i | 0 <= i < k :: ms[..k][i] == ms[i];
  }

  // Builds the pool, and refuses machines that could be confused.
  method Init(ms: seq<Provider>) returns (r: Option<FsmPool>)
    ensures r.Some? <==> Poolable(ms)
    ensures r.Some? ==> Serves(r.value, ms)
  {
    hide Known, Placed, Distinct, Disjoint, EventsList, StatesList, GlobalInitialEvent, Poolable, Serves;
    PoolableIs(ms);
    var p := FsmPool(NoEvent, map[], map[], map[]);
    KnowsNothing();
    assert ms[..0] == [];
    for i := 0 to |ms|
      invariant Known(ms[..i], p) && p.states == map[]
    {
      var m := ms[i];
      assert ms[..i + 1] == ms[..i] + [m];
      DistinctMore(ms[..i], p, m);
      Prefixes(ms, i + 1);
      if m.name == "" || m.name in p.mapper {
        return None;
      }
      var claimed := Claim(EventsList(m.table), m.name, p.events);
      if claimed.None? {
        return None;
      }
      var entry := p.entry;
      if GlobalInitialEvent(m.table) != NoEvent {
        if p.entry != NoEvent {
          return None;
        }
        entry := GlobalInitialEvent(m.table);
      }
      ghost var before := p;
      p := p.(entry := entry, events := claimed.value, mapper := p.mapper[m.name := m]);
      KnownMore(ms[..i], before, m, p);
    }
    var states: map<State, string> := map[];
    for i := 0 to |ms|
      invariant Placed(ms[..i], states)
    {
      var m := ms[i];
      assert ms[..i + 1] == ms[..i] + [m];
      DisjointMore(ms[..i], states, m);
      Prefixes(ms, i + 1);
      var claimed := Claim(StatesList(m.table), m.name, states);
      if claimed.None? {
        return None;
      }
      PlacedMore(ms[..i], states, m);
      states := claimed.value;
    }
    assert ms[..|ms|] == ms;
    PoolBuilt(ms, p, states);
    if p.entry == NoEvent {
      return None;
    }
    return Some(p.(states := states));
  }

  lemma KnowsNothing()
    ensures Known([], FsmPool(NoEvent, map[], map[], map[])) && Placed([], map[])
  {
  }

  lemma PoolableIs(ms: seq<Provider>)
    ensures Poolable(ms) ==> Distinct(ms) && Disjoint(ms)
  {
  }

  lemma PoolBuilt(ms: seq<Provider>, p: FsmPool, states: map<State, string>)
    requires Known(ms, p) && Placed(ms, states)
    ensures Poolable(ms) <==> p.entry != NoEvent
    ensures Serves(p.(states := states), ms)
  {
    hide Separate, Disjoint, EventsList, StatesList, GlobalInitialEvent;
  }

  // The pool finds a machine for exactly the states that machine leaves.
  lemma FindsOwner(p: FsmPool, ms: seq<Provider>, s: State)
    requires Poolable(ms) && Serves(p, ms)
    ensures forall m | m in ms :: s in StatesList(m.table) ==> MachineByState(p, s) == Some(m)
    ensures MachineByState(p, s).Some? ==>
              exists m :: m in ms && s in StatesList(m.table) && MachineByState(p, s) == Some(m)
  {
    hide EventsList, StatesList, GlobalInitialEvent;
  }
}
