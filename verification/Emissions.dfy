/** What a client hands to the operation pool over a whole log. */
module Emissions {
  import opened Names
  import opened NodeStep
  import opened RoundInvariant
  import opened Runs
  import opened Polling
  import opened ClientRounds
  import opened Operations
  import Delivery

  // The operations of a run: one, in order, for each message that brings its round to a waiting state.
  ghost predicate Yields(env: Env, store: Store, ins: seq<Input>, ops: seq<Operation>)
    decreases |ins|
  {
    if ins == [] then ops == []
    else
      var round, next := ins[0].m.round, Update(env, store, ins[0]);
      if Enters(Lookup(store, round), Lookup(next, round))
      then ops != [] && Fits(ops[0], round, next[round]) && Yields(env, next, ins[1..], ops[1..])
      else Yields(env, next, ins[1..], ops)
  }

  // What goes to the pool over a log: for each plain message that brings its round to a waiting state
  // the operation that asks for it, for each reinitialisation that is carried out all operations of its
  // replay as one, and nothing else, in the order of the log.
  ghost predicate Emits(c: Setup, store: Store, ms: seq<Message>, es: seq<Emission>)
    decreases |ms|
  {
    if ms == [] then es == []
    else
      var m, next := ms[0], HandleEffect(c, store, ms[0]).store;
      match Carried(c, store, m)
      case Some(q) =>
        && es != [] && es[0].Combined? && es[0].dkgId == q.dkgId && Yields(c.env, store, ReplayOf(c, q), es[0].ops)
        && Emits(c, next, ms[1..], es[1..])
      case None =>
        if m.event != ReinitDkg && Enters(Lookup(store, m.round), Lookup(next, m.round))
        then es != [] && es[0].Single? && Fits(es[0].op, m.round, next[m.round]) && Emits(c, next, ms[1..], es[1..])
        else Emits(c, next, ms[1..], es)
  }

  lemma OneYields(env: Env, store: Store, x: Input)
    requires StoreOk(store) && 0 < x.now
    ensures var round, next, ops := x.m.round, Update(env, store, x), OpOf(env, store, x);
            if Enters(Lookup(store, round), Lookup(next, round))
            then |ops| == 1 && Fits(ops[0], round, next[round])
            else ops == []
  {
    hide Step, Inv, Complete;
    OneOperationPerEntry(env, Lookup(store, x.m.round), x);
    NeverForgets(env, Lookup(store, x.m.round), x);
  }

  lemma {:induction false} RunYields(env: Env, store: Store, ins: seq<Input>)
    requires StoreOk(store) && Clocked(ins)
    ensures Yields(env, store, ins, OpsOf(env, store, ins))
    decreases |ins|
  {
    hide StoreOk, Update, OpOf, Enters, Fits;
    if ins != [] {
      var ops, rest := OpOf(env, store, ins[0]), OpsOf(env, Update(env, store, ins[0]), ins[1..]);
      OneYields(env, store, ins[0]);
      UpdateSound(env, store, ins[0]);
      RunYields(env, Update(env, store, ins[0]), ins[1..]);
      assert [] + rest == rest;
      assert |ops| == 1 ==> (ops + rest)[0] == ops[0] && (ops + rest)[1..] == rest;
    }
  }

  lemma EffectEmits(c: Setup, store: Store, m: Message)
    ensures HandleEffect(c, store, m).emitted
            == match Carried(c, store, m)
               case Some(q) => [Combined(q.dkgId, OpsOf(c.env, store, ReplayOf(c, q)))]
               case None =>
                 if m.event == ReinitDkg then []
                 else
                   var ops := OpOf(c.env, store, Input(m, c.clock(m), c.skip));
                   if ops == [] then [] else [Single(ops[0])]
    ensures m.event != ReinitDkg ==>
              HandleEffect(c, store, m).store == Update(c.env, store, Input(m, c.clock(m), c.skip))
  {
    hide OpOf, OpsOf, Rekey, ReplayStore, Update;
  }

  // A client that handles a log hands on exactly these.
  lemma {:induction false} EmittedExactly(c: Setup, store: Store, ms: seq<Message>)
    requires StoreOk(store) && forall x :: 0 < c.clock(x)
    ensures Emits(c, store, ms, EffectOf(c, store, ms).emitted)
    decreases |ms|
  {
    hide StoreOk, HandleEffect, OpOf, OpsOf, Enters, Fits, ReplayOf, Yields, Update;
    if ms != [] {
      var m, e := ms[0], HandleEffect(c, store, ms[0]);
      var rest := EffectOf(c, e.store, ms[1..]).emitted;
      HandlingOneKeeps(c, store, m);
      EmittedExactly(c, e.store, ms[1..]);
      EffectEmits(c, store, m);
      assert [] + rest == rest;
      assert |e.emitted| == 1 ==> (e.emitted + rest)[0] == e.emitted[0] && (e.emitted + rest)[1..] == rest;
      var req := Carried(c, store, m);
      if req.Some? {
        ReplayClocked(c, req.value);
        RunYields(c.env, store, ReplayOf(c, req.value));
      } else if m.event != ReinitDkg {
        OneYields(c.env, store, Input(m, c.clock(m), c.skip));
      }
    }
  }

  lemma ReplayClocked(c: Setup, q: ReDkg)
    requires forall x :: 0 < c.clock(x)
    ensures Clocked(ReplayOf(c, q))
  {
    InputsClocked(Delivery.Replayed(q.messages, c.name), c.clock, true);
  }
}
