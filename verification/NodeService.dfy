/** The node object: its store of dumps and the handling of one message. */
module NodeService {
  import opened Collections
  import opened Names
  import opened Payloads
  import opened Ceremony
  import opened NodeStep
  import opened TableFacts
  import opened EngineFacts
  import opened Machines
  import opened Instances
  import opened Runs

  // The store after a step saved what it had to save.
  function Saved(store: Store, round: string, saved: Option<Inst>): Store {
    match saved
    case None => store
    case Some(i) => store[round := i]
  }

  class Node {
    const env: Env
    var store: Store
    var skip: bool

    constructor (e: Env)
      ensures env == e && store == map[] && !skip
    {
      env, store, skip := e, map[], false;
    }

    // Loads the round's instance, creating and saving an idle one when there is none.
    method GetInstance(round: string) returns (i: Option<Instance>, err: Option<Error>)
      modifies this`store
      ensures var spec := Load(Lookup(old(store), round), round);
              match spec
              case LoadFailed(e) => i.None? && err == Some(e) && store == old(store)
              case Loaded(inst) =>
                && i.Some? && fresh(i.value) && fresh(i.value.machine) && fresh(i.value.round)
                && i.value.Ready() && i.value.Dump() == inst
                && store == Saved(old(store), round, Some(inst))
    {
      hide Routable, TrimSpace, TableOf, Owner;
      if round in store {
        i := FromDump(store[round]);
        return i, if i.None? then Some(NotRoutable) else None;
      }
      i := Create(round);
      if i.None? {
        return None, Some(EmptyRound);
      }
      store := store[round := Inst(i.value.dumpState, i.value.round.payload)];
      return i, None;
    }

    // Loads a saved round without creating one.
    method FindInstance(round: string) returns (i: Option<Instance>)
      ensures i.Some? <==> round in store && Routable(store[round].state)
      ensures i.Some? ==>
                && fresh(i.value) && fresh(i.value.machine) && fresh(i.value.round)
                && i.value.Dump() == store[round]
    {
      hide Routable, TableOf, Owner;
      if round !in store {
        return None;
      }
      i := FromDump(store[round]);
    }

    // Restarts a signing and saves the idle state.
    method Restart(i: Instance, round: string, now: Time) returns (err: Option<Error>)
      requires i.Ready()
      modifies this`store, i, i.machine, i.round
      ensures i.machine == old(i.machine) && i.round == old(i.round)
      ensures match RestartSigning(old(i.Dump()), now)
              case RecoverFailed(e) => err == Some(e) && store == old(store)
              case Recovered(inst) => err.None? && i.Ready() && i.Dump() == inst && store == old(store)[round := inst]
    {
      hide TableOf, Ceremony.Do, Owner;
      RestartsToIdle(i.Dump(), now);
      var resp;
      resp, err := i.Do(SigningRestart, DefaultRequest(now));
      if err.None? {
        store := store[round := Inst(i.dumpState, i.round.payload)];
      }
    }

    // Leaves a failed ceremony alone and brings a failed signing back to idle.
    method Resume(i: Instance, round: string, now: Time) returns (aborted: bool, err: Option<Error>)
      requires i.Ready() && round in store && store[round] == i.Dump()
      modifies this`store, i, i.machine, i.round
      ensures i.machine == old(i.machine) && i.round == old(i.round)
      ensures match Recover(old(i.Dump()), now)
              case Aborted => aborted && err.None? && store == old(store)
              case RecoverFailed(e) => !aborted && err == Some(e) && store == old(store)
              case Recovered(inst) =>
                !aborted && err.None? && i.Ready() && i.Dump() == inst && store == old(store)[round := inst]
    {
      hide TableOf, Ceremony.Do, Owner, RestartSigning, AnyDkgError, StateName, HasSuffix, HasPrefix;
      RestartsToIdle(i.Dump(), now);
      aborted, err := false, None;
      if HasSuffix(StateName(i.dumpState), "_error") {
        if i.round.payload.dkg.Some? {
          var found := SomeError(i.round.payload.dkg.value.quorum);
          ErrorIs(i.round.payload);
          if found {
            return true, None;
          }
        } else {
          ErrorIs(i.round.payload);
        }
        if i.round.payload.signing.Some? {
          err := Restart(i, round, now);
          if err.Some? {
            return;
          }
        }
      }
      IdleIsNoTimeout();
      if HasSuffix(StateName(i.dumpState), "_timeout") {
        if HasPrefix(StateName(i.dumpState), "state_sig_") || HasPrefix(StateName(i.dumpState), "state_dkg") {
          return true, None;
        }
        if HasPrefix(StateName(i.dumpState), "state_signing_") {
          if i.round.payload.signing.None? {
            return false, Some(NilDereference);
          }
          err := Restart(i, round, now);
        }
      }
    }

    // Hands a finished machine's payload to the next machine, reloading it through the pool.
    method HandOn(i: Instance, resp: Response, now: Time) returns (j: Instance, answer: Response, err: Option<Error>)
      requires i.Valid() && i.dumpState == resp.state
      ensures j == i || (fresh(j) && fresh(j.machine) && fresh(j.round))
      ensures Handed(HandOver(resp.state, i.round.payload, resp.data, now), j.Dump(), answer, err)
      ensures err.None? ==> j.Valid() && j.dumpState == answer.state
    {
      hide TableOf, Ceremony.Do, Owner, Handed;
      j, answer, err := i, resp, None;
      if answer.state == ProposalCollected {
        j, answer, err := Continue(Inst(j.dumpState, j.round.payload), DkgInit, now);
        if err.Some? {
          HandedFails(err.value, j.Dump(), answer);
          return;
        }
      }
      if answer.state == MasterKeyCollected {
        j, answer, err := Continue(Inst(j.dumpState, j.round.payload), SigningInit, now);
        if err.Some? {
          HandedFails(err.value, j.Dump(), answer);
          return;
        }
      }
      HandedOn(answer, j.Dump());
    }

    // What is left to do with a response: recover signatures, emit an operation, save.
    method Complete(i: Instance, m: Message, resp: Response, now: Time)
      returns (op: Option<Operation>, posted: Option<Signatures>, err: Option<Error>)
      requires i.Valid() && i.dumpState == resp.state && m.round in store
      modifies this`store
      ensures var before := old(store)[m.round];
              var out := Finish(env, before, m, resp.state, i.round.payload, resp.data, now);
              op == out.op && posted == out.posted && err == out.err && store == Saved(old(store), m.round, out.saved)
    {
      hide TableOf, Ceremony.Do, Owner;
      op, posted, err := None, None, None;
      var dump := Inst(i.dumpState, i.round.payload);
      if NeedsOperation(resp.state) {
        if resp.data != NoData {
          op := Some(Operation(m.round, resp.state, resp.data));
        }
      } else if resp.state == SigningCollected {
        if !resp.data.CollectedSigns? {
          return None, None, Some(BadArgument);
        }
        var p := i.round.payload;
        if p.dkg.None? {
          return None, None, Some(NilDereference);
        }
        var sigs := env.reconstruct(p.dkg.value.pubPoly, resp.data, p.threshold, |p.pubKeys|);
        if sigs.None? {
          return None, None, Some(ReconstructionFailed);
        }
        posted := sigs;
        var j, answer, failure := Continue(dump, SigningRestart, now);
        if failure.Some? {
          return None, posted, failure;
        }
        dump := Inst(j.dumpState, j.round.payload);
      }
      if m.event == SigningStart && !(m.data.SigningStartRequest? && env.tasksExpand(m.data.tasks)) {
        return None, posted, Some(BadTasks);
      }
      store := store[m.round := dump];
    }

    // Drives a resumed instance with a message.
    method Handle(i: Instance, m: Message, now: Time)
      returns (op: Option<Operation>, posted: Option<Signatures>, err: Option<Error>)
      requires i.Ready() && m.round in store && store[m.round] == i.Dump()
      modifies this`store, i, i.machine, i.round
      ensures var out := Deliver(env, old(i.Dump()), m, now);
              op == out.op && posted == out.posted && err == out.err && store == Saved(old(store), m.round, out.saved)
    {
      hide TableOf, Ceremony.Do, Owner, Finish, HandOver, Decode;
      var request := Decode(m);
      if request.None? {
        return None, None, Some(InvalidEvent);
      }
      var resp;
      resp, err := i.Do(m.event, request.value);
      if err.Some? {
        return None, None, err;
      }
      var j, answer;
      j, answer, err := HandOn(i, resp.value, now);
      if err.Some? {
        return None, None, err;
      }
      op, posted, err := Complete(j, m, answer, now);
    }

    // A message for a loaded round: verify, recover, step, hand over, emit, save.
    method Advance(i: Instance, m: Message, now: Time)
      returns (op: Option<Operation>, posted: Option<Signatures>, err: Option<Error>)
      requires i.Ready() && m.round in store && store[m.round] == i.Dump()
      modifies this`store, i, i.machine, i.round
      ensures var out := Step(env, skip, Some(old(i.Dump())), m, now);
              op == out.op && posted == out.posted && err == out.err && store == Saved(old(store), m.round, out.saved)
    {
      hide TableOf, Owner, Deliver, Recover, Verified, Routable;
      SourcesAreDisjoint(ProposalMachine, i.dumpState);
      ghost var before := store;
      if m.event != InitProposal && !Verified(skip, i.round.payload, m) {
        return None, None, Some(Unverified);
      }
      if m.event == SignatureReconstructed || m.event == SignatureReconstructionFailed {
        return None, None, None;
      }
      var aborted;
      aborted, err := Resume(i, m.round, now);
      if aborted || err.Some? {
        return None, None, err;
      }
      DeliverSaves(env, i.Dump(), m, now);
      SavedTwice(before, m.round, i.Dump(), Deliver(env, i.Dump(), m, now).saved);
      op, posted, err := Handle(i, m, now);
    }

    // One message of the log.
    method ProcessMessage(m: Message, now: Time)
      returns (op: Option<Operation>, posted: Option<Signatures>, err: Option<Error>)
      modifies this`store
      ensures var out := Step(env, skip, Lookup(old(store), m.round), m, now);
              op == out.op && posted == out.posted && err == out.err && store == Saved(old(store), m.round, out.saved)
      ensures store == Update(env, old(store), Input(m, now, skip))
    {
      hide Step, TableOf, Owner, Routable, TrimSpace, Load;
      ghost var before := store;
      LoadSays(env, skip, Lookup(store, m.round), m, now);
      var i;
      i, err := GetInstance(m.round);
      if i.None? {
        return None, None, err;
      }
      NeverForgets(env, Some(i.value.Dump()), Input(m, now, skip));
      SavedTwice(before, m.round, i.value.Dump(), After(env, Some(i.value.Dump()), Input(m, now, skip)));
      op, posted, err := Advance(i.value, m, now);
    }
  }

  lemma SavedTwice(store: Store, round: string, i: Inst, saved: Option<Inst>)
    requires saved.Some?
    ensures Saved(store[round := i], round, saved) == Saved(store, round, saved)
  {
  }

  lemma DeliverSaves(env: Env, i: Inst, m: Message, now: Time)
    ensures Deliver(env, i, m, now).saved.Some?
  {
    hide Ceremony.Do, HandOver, Decode;
  }

  // A step works on the loaded round, or fails with the load.
  lemma LoadSays(env: Env, skip: bool, saved: Option<Inst>, m: Message, now: Time)
    ensures match Load(saved, m.round)
            case LoadFailed(e) => Step(env, skip, saved, m, now) == StepOut(saved, None, None, Some(e))
            case Loaded(i) => Step(env, skip, saved, m, now) == Step(env, skip, Some(i), m, now)
  {
    hide Deliver, Recover, Verified, TrimSpace;
  }

  // Reloads a dump at a state that finished and drives it on.
  method Continue(d: Inst, e: Event, now: Time) returns (j: Instance, answer: Response, err: Option<Error>)
    requires d.state == ProposalCollected || d.state == MasterKeyCollected || d.state == SigningCollected
    ensures fresh(j) && fresh(j.machine) && fresh(j.round) && j.Valid()
    ensures match Ceremony.Do(d.state, d.payload, e, DefaultRequest(now))
            case Rejected(x) => err == Some(x)
            case Moved(s, p, data) => err.None? && answer == Response(s, data) && j.Dump() == Inst(s, p)
  {
    hide TableOf, Ceremony.Do, Owner;
    var loaded := FromDump(d);
    j := loaded.value;
    var resp;
    resp, err := j.Do(e, DefaultRequest(now));
    answer := if resp.Some? then resp.value else Response(NoState, NoData);
  }

  // A hand-over ended as specified.
  ghost predicate Handed(spec: DoResult, dump: Inst, answer: Response, err: Option<Error>) {
    match spec
    case Rejected(x) => err == Some(x)
    case Moved(s, p, data) => err.None? && answer == Response(s, data) && dump == Inst(s, p)
  }

  lemma HandedFails(x: Error, dump: Inst, answer: Response)
    ensures Handed(Rejected(x), dump, answer, Some(x))
  {
  }

  lemma HandedOn(answer: Response, dump: Inst)
    requires answer.state == dump.state
    ensures Handed(Moved(answer.state, dump.payload, answer.data), dump, answer, None)
  {
  }

  lemma IdleIsNoTimeout()
    ensures !HasSuffix(StateName(SigningIdle), "_timeout")
  {
    TimeoutNames(SigningIdle);
  }

  lemma RestartsToIdle(i: Inst, now: Time)
    ensures !RestartSigning(i, now).Aborted?
    ensures RestartSigning(i, now).Recovered? ==>
              RestartSigning(i, now).inst == Inst(SigningIdle, i.payload) && Owner(i.state) == Some(SigningMachine)
    ensures Owner(SigningIdle) == Some(SigningMachine)
  {
    RowOwner(i.state, SigningRestart);
  }

  // Looks for a participant that reported an error, in no particular order.
  method SomeError(q: DkgQuorum) returns (found: bool)
    ensures found <==> exists id :: id in q && q[id].error.Some?
  {
    var todo := q.Keys;
    while todo != {}
      invariant todo <= q.Keys && forall id | id in q.Keys - todo :: q[id].error.None?
      decreases |todo|
    {
      ghost var some := SomeOf(todo);
      var id :| id in todo;
      if q[id].error.Some? {
        return true;
      }
      todo := todo - {id};
    }
    return false;
  }

  lemma ErrorIs(p: Payload)
    ensures AnyDkgError(p) <==>
              p.dkg.Some? && exists id :: id in p.dkg.value.quorum && p.dkg.value.quorum[id].error.Some?
  {
  }
}
