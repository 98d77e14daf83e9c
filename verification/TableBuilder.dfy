/** Turning a list of rows into a machine table, with the checks that refuse a bad list. */
module TableBuilder {
  import opened Names
  import opened Tables

  // A map of edges after those of some sources were added under one key.
  ghost predicate Added<K(!new)>(before: map<(State, K), Edge>, after: map<(State, K), Edge>,
                                 key: K, src: seq<State>, edge: Edge)
  {
    && (forall s, k :: (s, k) in after <==> (s, k) in before || (k == key && s != NoState && s in src))
    && (forall s, k | (s, k) in after ::
          after[(s, k)] == if k == key && s != NoState && s in src then edge else before[(s, k)])
  }

  ghost predicate SourcesOk(d: EventDesc, autos: map<(State, RunMode), Edge>) {
    && GlobalDone !in d.src && SourcesOnce(d.src)
    && (exists k :: 0 <= k < |d.src| && d.src[k] != NoState)
    && (d.isAuto ==> forall s :: HasSource(d, s) ==> (s, EffectiveMode(d)) !in autos)
  }

  lemma AddedSkip<K(!new)>(before: map<(State, K), Edge>, after: map<(State, K), Edge>, key: K, src: seq<State>,
      edge: Edge)
    requires Added(before, after, key, src, edge)
    ensures Added(before, after, key, src + [NoState], edge)
  {
  }

  lemma AddedOne<K(!new)>(before: map<(State, K), Edge>, after: map<(State, K), Edge>, key: K, src: seq<State>,
      edge: Edge, s: State)
    requires Added(before, after, key, src, edge) && s != NoState
    ensures Added(before, after[(s, key) := edge], key, src + [s], edge)
  {
  }

  // A key is taken by one of the sources or was taken before.
  lemma AddedHas<K(!new)>(before: map<(State, K), Edge>, after: map<(State, K), Edge>, key: K, src: seq<State>,
      edge: Edge, s: State)
    requires Added(before, after, key, src, edge) && s != NoState
    ensures (s, key) in after <==> (s, key) in before || s in src
  {
  }

  lemma SameSourceTwice(src: seq<State>, j: nat)
    requires j < |src| && SourcesOnce(src[..j]) && src[j] != NoState
    ensures SourcesOnce(src[..j + 1]) <==> src[j] !in src[..j]
  {
    assert src[..j + 1] == src[..j] + [src[j]];
    if src[j] in src[..j] {
      var k :| 0 <= k < j && src[..j][k] == src[j];
      assert src[..j + 1][k] == src[..j + 1][j];
    }
  }

  lemma OncePrefix(src: seq<State>, j: nat)
    requires j <= |src|
    ensures SourcesOnce(src) ==> SourcesOnce(src[..j])
    ensures j < |src| && src[j] == NoState && SourcesOnce(src[..j]) ==> SourcesOnce(src[..j + 1])
  {
  }

  // The sources of an automatic row are free.
  ghost predicate FreeOf(autos: map<(State, RunMode), Edge>, src: seq<State>, mode: RunMode) {
    forall s | s in src && s != NoState :: (s, mode) !in autos
  }

  ghost predicate SomeSource(src: seq<State>) {
    exists k :: 0 <= k < |src| && src[k] != NoState
  }

  lemma SourcesOkIs(d: EventDesc, autos: map<(State, RunMode), Edge>)
    ensures SourcesOk(d, autos) <==>
            && GlobalDone !in d.src && SourcesOnce(d.src) && SomeSource(d.src)
            && (d.isAuto ==> FreeOf(autos, d.src, EffectiveMode(d)))
  {
    hide SourcesOnce;
  }

  lemma SomeSourceGrows(src: seq<State>, s: State)
    ensures SomeSource(src + [s]) <==> SomeSource(src) || s != NoState
  {
    var more := src + [s];
    assert more[|src|] == s;
    assert forall k | 0 <= k < |src| :: more[k] == src[k];
  }

  lemma FreeOfGrows(autos: map<(State, RunMode), Edge>, src: seq<State>, j: nat, mode: RunMode)
    requires j < |src|
    ensures FreeOf(autos, src[..j + 1], mode) <==>
              FreeOf(autos, src[..j], mode) && (src[j] == NoState || (src[j], mode) !in autos)
    ensures FreeOf(autos, src, mode) ==> FreeOf(autos, src[..j + 1], mode)
  {
    assert src[..j + 1] == src[..j] + [src[j]];
  }

  // What is known after the first sources of a row.
  ghost predicate Reading(d: EventDesc, src: seq<State>, t: Table, now: Table) {
    && GlobalDone !in src && SourcesOnce(src)
    && Added(t.transitions, now.transitions, d.name, src, EdgeOf(d))
    && Added(t.autos, now.autos, EffectiveMode(d), if d.isAuto then src else [], EdgeOf(d))
    && (d.isAuto ==> FreeOf(t.autos, src, EffectiveMode(d)))
  }

  lemma ReadingStarts(d: EventDesc, t: Table)
    ensures Reading(d, d.src[..0], t, t) && !SomeSource(d.src[..0])
  {
  }

  lemma ReadingSkips(d: EventDesc, j: nat, t: Table, now: Table)
    requires j < |d.src| && Reading(d, d.src[..j], t, now) && d.src[j] == NoState
    ensures Reading(d, d.src[..j + 1], t, now)
  {
    hide Added, SourcesOnce, FreeOf, EdgeOf, EffectiveMode;
    assert d.src[..j + 1] == d.src[..j] + [d.src[j]];
    OncePrefix(d.src, j);
    FreeOfGrows(t.autos, d.src, j, EffectiveMode(d));
    AddedSkip(t.transitions, now.transitions, d.name, d.src[..j], EdgeOf(d));
    if d.isAuto {
      AddedSkip(t.autos, now.autos, EffectiveMode(d), d.src[..j], EdgeOf(d));
    }
  }

  // The keys under which a source is filed are taken exactly when the row is bad.
  lemma ReadingRefuses(d: EventDesc, j: nat, t: Table, now: Table)
    requires j < |d.src| && Reading(d, d.src[..j], t, now) && d.src[j] != NoState
    requires forall s :: (s, d.name) !in t.transitions
    ensures (d.src[j], d.name) in now.transitions ==> !SourcesOnce(d.src)
    ensures d.isAuto && (d.src[j], d.name) !in now.transitions && (d.src[j], EffectiveMode(d)) in now.autos ==>
              !FreeOf(t.autos, d.src, EffectiveMode(d))
  {
    hide Added, SourcesOnce, FreeOf, EdgeOf, EffectiveMode;
    AddedHas(t.transitions, now.transitions, d.name, d.src[..j], EdgeOf(d), d.src[j]);
    SameSourceTwice(d.src, j);
    OncePrefix(d.src, j + 1);
    if d.isAuto {
      FreeOfGrows(t.autos, d.src, j, EffectiveMode(d));
      AddedHas(t.autos, now.autos, EffectiveMode(d), d.src[..j], EdgeOf(d), d.src[j]);
    }
  }

  lemma ReadingAdds(d: EventDesc, j: nat, t: Table, now: Table, next: Table)
    requires j < |d.src| && Reading(d, d.src[..j], t, now) && d.src[j] != NoState && d.src[j] != GlobalDone
    requires forall s :: (s, d.name) !in t.transitions
    requires (d.src[j], d.name) !in now.transitions
    requires d.isAuto ==> (d.src[j], EffectiveMode(d)) !in now.autos
    requires next.transitions == now.transitions[(d.src[j], d.name) := EdgeOf(d)]
    requires next.autos == if d.isAuto then now.autos[(d.src[j], EffectiveMode(d)) := EdgeOf(d)] else now.autos
    ensures Reading(d, d.src[..j + 1], t, next)
  {
    hide Added, SourcesOnce, FreeOf, EdgeOf, EffectiveMode;
    assert d.src[..j + 1] == d.src[..j] + [d.src[j]];
    AddedHas(t.transitions, now.transitions, d.name, d.src[..j], EdgeOf(d), d.src[j]);
    SameSourceTwice(d.src, j);
    AddedOne(t.transitions, now.transitions, d.name, d.src[..j], EdgeOf(d), d.src[j]);
    if d.isAuto {
      AddedHas(t.autos, now.autos, EffectiveMode(d), d.src[..j], EdgeOf(d), d.src[j]);
      FreeOfGrows(t.autos, d.src, j, EffectiveMode(d));
      AddedOne(t.autos, now.autos, EffectiveMode(d), d.src[..j], EdgeOf(d), d.src[j]);
    }
  }

  // Adds the edges of one row, source by source. Refuses the final state as a source, a source
  // listed twice, a second automatic event for a state, and a row without a source.
  method AddRow(d: EventDesc, t: Table, sources: set<State>) returns (r: Option<Table>, newSources: set<State>)
    requires forall s :: (s, d.name) !in t.transitions
    ensures r.Some? <==> SourcesOk(d, t.autos)
    ensures r.Some? ==> Reading(d, d.src, t, r.value)
    ensures r.Some? ==>
              r.value == t.(transitions := r.value.transitions, autos := r.value.autos,
                            initialEvent := if t.initialEvent == NoEvent && HasSource(d, t.initialState) then d.name
                                            else t.initialEvent)
    ensures r.Some? ==> forall s :: s in newSources <==> s in sources || HasSource(d, s)
  {
    hide Reading, SourcesOk, SourcesOnce, SomeSource, FreeOf, EdgeOf, EffectiveMode;
    var now, counter := t, 0;
    newSources := sources;
    ReadingStarts(d, t);
    SourcesOkIs(d, t.autos);
    for j := 0 to |d.src|
      invariant Reading(d, d.src[..j], t, now)
      invariant 0 <= counter && (counter > 0 <==> SomeSource(d.src[..j]))
      invariant now == t.(transitions := now.transitions, autos := now.autos, initialEvent := now.initialEvent)
      invariant now.initialEvent
                == if t.initialEvent == NoEvent && t.initialState != NoState && t.initialState in d.src[..j]
                   then d.name else t.initialEvent
      invariant forall s :: s in newSources <==> s in sources || (s != NoState && s in d.src[..j])
    {
      var s := d.src[j];
      assert d.src[..j + 1] == d.src[..j] + [s];
      SomeSourceGrows(d.src[..j], s);
      if s == NoState {
        ReadingSkips(d, j, t, now);
        continue;
      }
      ReadingRefuses(d, j, t, now);
      if s == GlobalDone || (s, d.name) in now.transitions {
        return None, newSources;
      }
      ghost var before := now;
      now := now.(transitions := now.transitions[(s, d.name) := EdgeOf(d)]);
      if s == now.initialState && now.initialEvent == NoEvent {
        now := now.(initialEvent := d.name);
      }
      if d.isAuto {
        if (s, EffectiveMode(d)) in now.autos {
          return None, newSources;
        }
        now := now.(autos := now.autos[(s, EffectiveMode(d)) := EdgeOf(d)]);
      }
      ReadingAdds(d, j, t, before, now);
      newSources := newSources + {s};
      counter := counter + 1;
    }
    assert d.src[..|d.src|] == d.src;
    ReadingSays(d, t, now);
    return if counter == 0 then None else Some(now), newSources;
  }

  lemma ReadingSays(d: EventDesc, t: Table, now: Table)
    requires Reading(d, d.src, t, now)
    ensures GlobalDone !in d.src && SourcesOnce(d.src)
    ensures d.isAuto ==> FreeOf(t.autos, d.src, EffectiveMode(d))
    ensures Added(t.transitions, now.transitions, d.name, d.src, EdgeOf(d))
    ensures Added(t.autos, now.autos, EffectiveMode(d), if d.isAuto then d.src else [], EdgeOf(d))
  {
    hide Added, SourcesOnce, FreeOf;
  }

  // ---------------------------------------------------------------- what the rows read so far mean

  lemma DeclaresGrows(rows: seq<EventDesc>, d: EventDesc, s: State, e: Event, edge: Edge)
    ensures Declares(rows + [d], s, e, edge) <==> Declares(rows, s, e, edge) || Leads(d, s, e, edge)
  {
    hide Leads;
  }

  lemma DeclaresAutoGrows(rows: seq<EventDesc>, d: EventDesc, s: State, mode: RunMode, edge: Edge)
    ensures DeclaresAuto(rows + [d], s, mode, edge) <==>
              DeclaresAuto(rows, s, mode, edge) || LeadsAlone(d, s, mode, edge)
  {
    hide LeadsAlone;
  }

  lemma SourceGrows(rows: seq<EventDesc>, d: EventDesc, s: State)
    ensures IsSource(rows + [d], s) <==> IsSource(rows, s) || HasSource(d, s)
  {
    hide HasSource;
  }

  lemma TransitionsGrow(rows: seq<EventDesc>, d: EventDesc, before: map<(State, Event), Edge>,
      after: map<(State, Event), Edge>)
    requires HoldsTransitions(rows, before) && Added(before, after, d.name, d.src, EdgeOf(d))
    requires d.name !in EventNames(rows)
    ensures HoldsTransitions(rows + [d], after)
  {
    forall s, e, edge
      ensures Declares(rows + [d], s, e, edge) <==> (s, e) in after && after[(s, e)] == edge
    {
      DeclaresGrows(rows, d, s, e, edge);
      assert Declares(rows, s, e, edge) ==> e in EventNames(rows);
    }
  }

  lemma AutosGrow(rows: seq<EventDesc>, d: EventDesc, before: map<(State, RunMode), Edge>,
      after: map<(State, RunMode), Edge>)
    requires HoldsAutos(rows, before)
    requires Added(before, after, EffectiveMode(d), if d.isAuto then d.src else [], EdgeOf(d))
    requires d.isAuto ==> forall s :: HasSource(d, s) ==> (s, EffectiveMode(d)) !in before
    ensures HoldsAutos(rows + [d], after)
  {
    forall s, mode, edge
      ensures DeclaresAuto(rows + [d], s, mode, edge) <==> (s, mode) in after && after[(s, mode)] == edge
    {
      DeclaresAutoGrows(rows, d, s, mode, edge);
    }
  }

  lemma RowsOkGrows(rows: seq<EventDesc>, d: EventDesc)
    requires RowsOk(rows)
    ensures RowsOk(rows + [d]) <==> RowOk(d) && forall e | e in rows :: Apart(e, d)
  {
    hide RowOk, Apart;
    var more := rows + [d];
    assert more[|rows|] == d && d in more;
    assert forall i | 0 <= i < |rows| :: more[i] == rows[i] && rows[i] in rows;
    if RowsOk(more) {
      forall e | e in rows
        ensures Apart(e, d)
      {
        var i :| 0 <= i < |rows| && rows[i] == e;
        assert Apart(more[i], more[|rows|]);
      }
    }
  }

  // The automatic rows and the keys under which they are registered.
  lemma AutoKey(rows: seq<EventDesc>, autos: map<(State, RunMode), Edge>, e: EventDesc, s: State)
    requires HoldsAutos(rows, autos) && e in rows && e.isAuto && HasSource(e, s)
    ensures (s, EffectiveMode(e)) in autos
  {
    hide HasSource, EdgeOf, EffectiveMode;
    assert LeadsAlone(e, s, EffectiveMode(e), EdgeOf(e));
    assert DeclaresAuto(rows, s, EffectiveMode(e), EdgeOf(e));
  }

  lemma AutoRow(rows: seq<EventDesc>, autos: map<(State, RunMode), Edge>, s: State, mode: RunMode)
    returns (e: EventDesc)
    requires HoldsAutos(rows, autos) && (s, mode) in autos
    ensures e in rows && e.isAuto && EffectiveMode(e) == mode && HasSource(e, s)
  {
    hide HasSource, EdgeOf, EffectiveMode;
    assert DeclaresAuto(rows, s, mode, autos[(s, mode)]);
    e :| e in rows && LeadsAlone(e, s, mode, autos[(s, mode)]);
  }

  lemma ApartFromAll(rows: seq<EventDesc>, d: EventDesc, autos: map<(State, RunMode), Edge>)
    requires HoldsAutos(rows, autos)
    ensures (forall e | e in rows :: Apart(e, d)) <==>
            d.name !in EventNames(rows)
            && (d.isAuto ==> forall s :: HasSource(d, s) ==> (s, EffectiveMode(d)) !in autos)
  {
    hide HoldsAutos, HasSource, EffectiveMode;
    if d.name in EventNames(rows) {
      var e :| e in rows && e.name == d.name;
      assert !Apart(e, d);
    } else if d.isAuto && exists s :: HasSource(d, s) && (s, EffectiveMode(d)) in autos {
      var s :| HasSource(d, s) && (s, EffectiveMode(d)) in autos;
      var e := AutoRow(rows, autos, s, EffectiveMode(d));
      assert !Apart(e, d);
    } else {
      forall e | e in rows
        ensures Apart(e, d)
      {
        assert e.name in EventNames(rows);
        forall s | e.isAuto && HasSource(e, s)
          ensures (s, EffectiveMode(e)) in autos
        {
          AutoKey(rows, autos, e, s);
        }
      }
    }
  }

  // A row fits behind the others exactly when its name is new and its sources are free.
  lemma RowFits(rows: seq<EventDesc>, d: EventDesc, autos: map<(State, RunMode), Edge>)
    requires RowsOk(rows) && HoldsAutos(rows, autos)
    ensures RowsOk(rows + [d]) <==>
            d.name != NoEvent && d.dst != NoState && d.name !in EventNames(rows) && SourcesOk(d, autos)
  {
    hide RowsOk, HoldsAutos, SourcesOnce, HasSource, EffectiveMode, Apart, EventNames;
    RowsOkGrows(rows, d);
    ApartFromAll(rows, d, autos);
  }

  lemma {:induction false} FirstGrows(rows: seq<EventDesc>, d: EventDesc, s: State)
    requires forall d | d in rows :: d.name != NoEvent
    ensures FirstFrom(rows + [d], s) ==
            if FirstFrom(rows, s) == NoEvent && HasSource(d, s) then d.name else FirstFrom(rows, s)
    decreases |rows|
  {
    var more := rows + [d];
    if rows == [] {
      assert more[0] == d && more[1..] == [];
    } else {
      assert more[0] == rows[0] && more[1..] == rows[1..] + [d];
      FirstGrows(rows[1..], d, s);
    }
  }

  // ---------------------------------------------------------------- the builder

  // A table that holds the rows read so far.
  ghost predicate Built(rows: seq<EventDesc>, t: Table, names: set<Event>, states: set<State>, sources: set<State>) {
    && t.initialEvent == FirstFrom(rows, t.initialState)
    && RowsOk(rows)
    && names == EventNames(rows) && states == Destinations(rows)
    && (forall s :: s in sources <==> IsSource(rows, s))
    && HoldsTransitions(rows, t.transitions) && HoldsAutos(rows, t.autos)
  }

  lemma BuiltNothing(t: Table)
    requires t.initialEvent == NoEvent && t.transitions == map[] && t.autos == map[]
    ensures Built([], t, {}, {}, {})
  {
  }

  lemma BuiltMore(rows: seq<EventDesc>, d: EventDesc, t: Table, next: Table,
                  names: set<Event>, states: set<State>, sources: set<State>, newSources: set<State>)
    requires Built(rows, t, names, states, sources) && RowsOk(rows + [d]) && d.name !in names
    requires Reading(d, d.src, t, next) && SourcesOk(d, t.autos)
    requires next.initialState == t.initialState
    requires next.initialEvent
             == if t.initialEvent == NoEvent && HasSource(d, t.initialState) then d.name else t.initialEvent
    requires forall s :: s in newSources <==> s in sources || HasSource(d, s)
    ensures Built(rows + [d], next, names + {d.name}, states + {d.dst}, newSources)
  {
    hide Reading, HoldsTransitions, HoldsAutos, RowsOk, Added, SourcesOk, SourcesOnce, FirstFrom, IsSource,
         HasSource, EventNames, Destinations;
    ReadingSays(d, t, next);
    FitsFree(d, t.autos);
    TransitionsGrow(rows, d, t.transitions, next.transitions);
    AutosGrow(rows, d, t.autos, next.autos);
    forall s
      ensures IsSource(rows + [d], s) <==> IsSource(rows, s) || HasSource(d, s)
    {
      SourceGrows(rows, d, s);
    }
    NamesSet(rows);
    FirstGrows(rows, d, t.initialState);
    SetsGrow(rows, d);
  }

  lemma BuiltFits(rows: seq<EventDesc>, d: EventDesc, t: Table, names: set<Event>, states: set<State>,
      sources: set<State>)
    requires Built(rows, t, names, states, sources)
    ensures RowsOk(rows + [d]) <==>
            d.name != NoEvent && d.dst != NoState && d.name !in names && SourcesOk(d, t.autos)
    ensures forall s, e | (s, e) in t.transitions :: e in names
  {
    hide HoldsTransitions, HoldsAutos, RowsOk, SourcesOk, FirstFrom, IsSource, EventNames, Destinations;
    RowFits(rows, d, t.autos);
    KnownNames(rows, t.transitions);
  }

  // Accepts exactly the well-formed lists, and keeps their rows.
  method MustNew(name: string, initial: State, rows: seq<EventDesc>, callbacks: set<Event>) returns (r: Option<Table>)
    ensures r.Some? <==> name != "" && WellFormed(initial, rows, callbacks)
    ensures r.Some? ==> Holds(r.value, initial, rows, callbacks)
  {
    hide Built, WellFormed, Holds, RowsOk, SourcesOk, Reading, HasSource;
    FormedIs(initial, rows, callbacks);
    if name == "" || initial == NoState || rows == [] {
      return None;
    }
    var t := Table(initial, NoEvent, map[], map[], {}, {});
    var names: set<Event>, states: set<State>, sources: set<State> := {}, {}, {};
    BuiltNothing(t);
    assert rows[..0] == [];
    for i := 0 to |rows|
      invariant Built(rows[..i], t, names, states, sources) && t.initialState == initial
    {
      var d := rows[i];
      assert rows[..i + 1] == rows[..i] + [d];
      BuiltFits(rows[..i], d, t, names, states, sources);
      GoodPrefix(rows, i + 1);
      if d.name == NoEvent || d.dst == NoState || d.name in names {
        return None;
      }
      var added, newSources := AddRow(d, t, sources);
      if added.None? {
        return None;
      }
      BuiltMore(rows[..i], d, t, added.value, names, states, sources, newSources);
      t, sources := added.value, newSources;
      names, states := names + {d.name}, states + {d.dst};
    }
    assert rows[..|rows|] == rows;
    var fin: set<State> := set s | s in states && s != GlobalIdle && (s == GlobalDone || s !in sources);
    BuiltAll(initial, rows, callbacks, t, names, states, sources, fin);
    if |states| < 2 || !(callbacks <= names) {
      return None;
    }
    return Some(t.(callbacks := callbacks, finStates := fin));
  }

  lemma FormedIs(initial: State, rows: seq<EventDesc>, callbacks: set<Event>)
    ensures WellFormed(initial, rows, callbacks) ==> initial != NoState && rows != [] && RowsOk(rows)
  {
    hide RowsOk;
  }

  lemma BuiltAll(initial: State, rows: seq<EventDesc>, callbacks: set<Event>, t: Table,
                 names: set<Event>, states: set<State>, sources: set<State>, fin: set<State>)
    requires Built(rows, t, names, states, sources) && t.initialState == initial && initial != NoState && rows != []
    requires fin == set s | s in states && s != GlobalIdle && (s == GlobalDone || s !in sources)
    ensures WellFormed(initial, rows, callbacks) <==> 2 <= |states| && callbacks <= names
    ensures Holds(t.(callbacks := callbacks, finStates := fin), initial, rows, callbacks)
  {
    hide HoldsTransitions, HoldsAutos, RowsOk, FirstFrom, IsSource, EventNames, Destinations;
  }

  lemma GoodPrefix(rows: seq<EventDesc>, k: nat)
    requires k <= |rows|
    ensures RowsOk(rows) ==> RowsOk(rows[..k])
  {
    hide RowOk, Apart;
    var some := rows[..k];
    assert forall i | 0 <= i < k :: some[i] == rows[i];
  }

  lemma NamesSet(rows: seq<EventDesc>)
    requires RowsOk(rows)
    ensures forall d | d in rows :: d.name != NoEvent
  {
  }

  lemma FitsFree(d: EventDesc, autos: map<(State, RunMode), Edge>)
    requires SourcesOk(d, autos)
    ensures d.isAuto ==> forall s :: HasSource(d, s) ==> (s, EffectiveMode(d)) !in autos
  {
  }

  lemma KnownNames(rows: seq<EventDesc>, transitions: map<(State, Event), Edge>)
    requires HoldsTransitions(rows, transitions)
    ensures forall s, e | (s, e) in transitions :: e in EventNames(rows)
  {
    forall s, e | (s, e) in transitions
      ensures e in EventNames(rows)
    {
      assert Declares(rows, s, e, transitions[(s, e)]);
    }
  }

  lemma SetsGrow(rows: seq<EventDesc>, d: EventDesc)
    ensures EventNames(rows + [d]) == EventNames(rows) + {d.name}
    ensures Destinations(rows + [d]) == Destinations(rows) + {d.dst}
  {
  }
}
