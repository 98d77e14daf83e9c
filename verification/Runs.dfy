/** Whole runs of a node over any log: what every reachable round satisfies. */
module Runs {
  import opened Names
  import opened Payloads
  import opened Ceremony
  import opened NodeStep
  import opened RoundInvariant
  import opened Steps

  // A message delivered to a node, with what its clock showed and whether signature checks were off.
  datatype Input = Input(m: Message, now: Time, skip: bool)

  ghost predicate Clocked(ins: seq<Input>) {
    forall k | 0 <= k < |ins| :: 0 < ins[k].now
  }

  // ---------------------------------------------------------------- one round

  ghost function After(env: Env, saved: Option<Inst>, x: Input): Option<Inst> {
    Step(env, x.skip, saved, x.m, x.now).saved
  }

  ghost function RoundRun(env: Env, saved: Option<Inst>, ins: seq<Input>): Option<Inst>
    decreases |ins|
  {
    if ins == [] then saved else RoundRun(env, After(env, saved, ins[0]), ins[1..])
  }

  ghost predicate SavedInv(saved: Option<Inst>) {
    saved.Some? ==> Inv(saved.value)
  }

  lemma IdleInv(id: string)
    ensures Inv(Inst(GlobalIdle, EmptyPayload(id)))
  {
  }

  // The instance a step works on.
  function Base(saved: Option<Inst>, m: Message): Option<Inst> {
    if saved.None? && TrimSpace(m.round) != "" then Some(Inst(GlobalIdle, EmptyPayload(TrimSpace(m.round)))) else saved
  }

  lemma StepOnBase(env: Env, saved: Option<Inst>, x: Input)
    requires SavedInv(saved) && 0 < x.now
    ensures SavedInv(Base(saved, x.m))
    ensures var base := Base(saved, x.m);
            var out := Step(env, x.skip, saved, x.m, x.now);
            && SavedInv(out.saved)
            && (out.err.Some? ==> !Fatal(out.err.value))
            && (base.None? ==> out == StepOut(None, None, None, Some(EmptyRound)))
            && (base.Some? ==> Inv(Resumed(base.value)) && StepEffect(env, x.skip, base.value, x.m, x.now, out)
                               && out.saved.Some?)
  {
    hide Step, Inv, StepEffect, TrimSpace;
    var base := Base(saved, x.m);
    IdleInv(TrimSpace(x.m.round));
    if saved.None? {
      StepCreates(env, x.skip, x.m, x.now);
    }
    if base.Some? {
      StepSays(env, x.skip, base.value, x.m, x.now);
    }
  }

  lemma AfterKeeps(env: Env, saved: Option<Inst>, x: Input)
    requires SavedInv(saved) && 0 < x.now
    ensures SavedInv(After(env, saved, x)) && (saved.Some? ==> After(env, saved, x).Some?)
  {
    hide Step, Inv, StepEffect, TrimSpace;
    StepOnBase(env, saved, x);
  }

  // A step leaves a saved round alone, resumes it, or lands where the machines moved.
  lemma StepChoices(env: Env, i: Inst, x: Input)
    requires Inv(i) && 0 < x.now
    ensures Inv(Resumed(i))
    ensures var n := After(env, Some(i), x);
            && n.Some?
            && (|| n.value == i
                || n.value == Resumed(i)
                || (Decode(x.m).Some? && Takes(Resumed(i), x.m.event, Decode(x.m).value)
                    && Result(Resumed(i), x.m.event, Decode(x.m).value, x.now).Moved?
                    && n.value == Landed(Result(Resumed(i), x.m.event, Decode(x.m).value, x.now))))
  {
    hide Step, Inv, Gate, Result, Takes, Decode, Landed, Emitted, Resumed, Cancelled, Fatal, LocalFailure;
    StepSays(env, x.skip, i, x.m, x.now);
  }

  // Every reachable round keeps the invariant.
  lemma {:induction false} RoundRunKeeps(env: Env, saved: Option<Inst>, ins: seq<Input>)
    requires SavedInv(saved) && Clocked(ins)
    ensures SavedInv(RoundRun(env, saved, ins))
    decreases |ins|
  {
    hide Step, SavedInv;
    if ins != [] {
      StepOnBase(env, saved, ins[0]);
      RoundRunKeeps(env, After(env, saved, ins[0]), ins[1..]);
    }
  }

  // ---------------------------------------------------------------- all rounds of a node

  type Store = map<string, Inst>

  function Lookup(store: Store, round: string): Option<Inst> {
    if round in store then Some(store[round]) else None
  }

  ghost predicate StoreOk(store: Store) {
    forall k | k in store :: Inv(store[k])
  }

  ghost function Update(env: Env, store: Store, x: Input): Store {
    match After(env, Lookup(store, x.m.round), x)
    case None => store
    case Some(i) => store[x.m.round := i]
  }

  ghost function Run(env: Env, store: Store, ins: seq<Input>): Store
    decreases |ins|
  {
    if ins == [] then store else Run(env, Update(env, store, ins[0]), ins[1..])
  }

  ghost function OfRound(ins: seq<Input>, round: string): seq<Input>
    decreases |ins|
  {
    if ins == [] then []
    else if ins[0].m.round == round then [ins[0]] + OfRound(ins[1..], round)
    else OfRound(ins[1..], round)
  }

  // Steps of rounds do not interfere: a round's dump depends on the messages that name it.
  lemma {:induction false} RoundsAreIsolated(env: Env, store: Store, ins: seq<Input>, round: string)
    ensures Lookup(Run(env, store, ins), round) == RoundRun(env, Lookup(store, round), OfRound(ins, round))
    decreases |ins|
  {
    hide After;
    if ins != [] {
      var x := ins[0];
      RoundsAreIsolated(env, Update(env, store, x), ins[1..], round);
      if x.m.round == round {
        var rest := OfRound(ins[1..], round);
        assert ([x] + rest)[0] == x && ([x] + rest)[1..] == rest;
        NeverForgets(env, Lookup(store, round), x);
      }
    }
  }

  lemma NeverForgets(env: Env, saved: Option<Inst>, x: Input)
    ensures saved.Some? ==> After(env, saved, x).Some?
  {
    hide Recover, Do, HandOver;
  }

  lemma OfRoundClocked(ins: seq<Input>, round: string)
    requires Clocked(ins)
    ensures Clocked(OfRound(ins, round))
  {
    if ins != [] {
      OfRoundClocked(ins[1..], round);
    }
  }

  // Every round in the store of a node that started empty keeps the invariant.
  lemma ReachableInv(env: Env, ins: seq<Input>, round: string)
    requires Clocked(ins) && round in Run(env, map[], ins)
    ensures Inv(Run(env, map[], ins)[round])
  {
    hide Inv;
    RoundsAreIsolated(env, map[], ins, round);
    OfRoundClocked(ins, round);
    RoundRunKeeps(env, None, OfRound(ins, round));
  }
}
