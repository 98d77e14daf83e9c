/** The machine object: its state, its payload and the engine's methods on them. */
module Machines {
  import opened Names
  import opened Payloads
  import opened Ceremony
  import opened Tables
  import opened TableFacts
  import opened Engine
  import opened EngineFacts
  import opened RoundState
  import TableBuilder
  import ProposalCallbacks
  import DkgCallbacks
  import SigningCallbacks

  function MachineName(id: MachineId): string {
    match id
    case ProposalMachine => "signature_proposal_fsm"
    case DkgMachine => "dkg_proposal_fsm"
    case SigningMachine => "signing_proposal_fsm"
  }

  lemma Named(id: MachineId)
    ensures MachineName(id) != ""
  {
  }

  // What an event returned to its caller: nothing when it was not routed, and an empty state when
  // its callback failed.
  datatype Response = Response(state: State, data: Data)

  class Machine {
    const id: MachineId
    const table: Table
    var currentState: State
    var round: Round

    ghost predicate Valid() {
      TableOf(table, id)
    }

    constructor (machine: MachineId, payload: Round)
      ensures Valid() && id == machine && currentState == Initial(machine) && round == payload
    {
      hide WellFormed, Holds, Rows, Callbacks;
      TablesAreAccepted(machine);
      Named(machine);
      var t := TableBuilder.MustNew(MachineName(machine), Initial(machine), Rows(machine), Callbacks(machine));
      id := machine;
      table := t.value;
      currentState := Initial(machine);
      round := payload;
    }

    // Resumes the machine at a state and payload; refused for a state the machine does not leave.
    method WithSetup(state: State, payload: Round) returns (ok: bool)
      requires Valid()
      modifies this
      ensures round == payload
      ensures ok <==> state == NoState || Owner(state) == Some(id)
      ensures currentState == if ok && state != NoState then state else old(currentState)
    {
      hide TableOf, Owner;
      round := payload;
      ok := true;
      if state != NoState {
        var states := set k | k in table.transitions :: k.0;
        StatesAreSources(table, id, state);
        ok := state in states;
        if ok {
          currentState := state;
        }
      }
    }

    method ExecCallback(e: Event, r: Request) returns (out: Event, data: Data, err: Option<Error>)
      modifies round
      ensures e in table.callbacks ==>
                Told(Callback(id, table.callbacks, e, old(round.payload), r),
                     old(round.payload), round.payload, out, data, err)
    {
      hide ProposalCallbacks.A.Execute, DkgCallbacks.A.Execute, SigningCallbacks.A.Execute, Told;
      match id
      case ProposalMachine => out, data, err := ProposalCallbacks.Execute(round, e, r);
      case DkgMachine => out, data, err := DkgCallbacks.Execute(round, e, r);
      case SigningMachine => out, data, err := SigningCallbacks.Execute(round, e, r);
    }

    // Moves along the edge of an event, if the table has one.
    method SetState(e: Event) returns (err: Option<Error>)
      modifies this`currentState
      ensures err == if Target(table, old(currentState), e).Some? then None else Some(UndeclaredTransition)
      ensures currentState == if err.None? then Target(table, old(currentState), e).value else old(currentState)
    {
      if (currentState, e) !in table.transitions {
        return Some(UndeclaredTransition);
      }
      currentState := table.transitions[(currentState, e)].dst;
      return None;
    }

    // Runs the automatic event of the current state in a mode, if there is one.
    method ProcessAutoEvent(mode: RunMode, r: Request) returns (found: bool, out: Event, data: Data, err: Option<Error>)
      modifies this`currentState, round
      ensures AutoTold(RunAutoEvent(table, id, mode, old(currentState), old(round.payload), r), found, out, data, err,
                       currentState, round.payload)
      ensures !found ==> currentState == old(currentState) && round.payload == old(round.payload) && out == NoEvent
    {
      hide Callback;
      found, out, data, err := false, NoEvent, NoData, None;
      if (currentState, mode) !in table.autos {
        return;
      }
      found := true;
      var e := table.autos[(currentState, mode)].event;
      if e in table.callbacks {
        out, data, err := ExecCallback(e, r);
        if err.Some? {
          out := NoEvent;
          return;
        }
      } else {
        NoCallback(id, table.callbacks, e, round.payload, r);
      }
      err := SetState(Fired(e, out));
    }

    // What runs after a transition.
    method Conclude(before: Data, r: Request) returns (resp: Response, err: Option<Error>)
      modifies this`currentState, round
      ensures DoTold(Settle(table, id, old(currentState), old(round.payload), before, r),
                     resp, err, currentState, round.payload)
    {
      hide RunAutoEvent;
      var data := before;
      var found, out, autoData, failure := ProcessAutoEvent(RunAfter, r);
      if found && autoData != NoData {
        data := autoData;
      }
      return Response(currentState, data), failure;
    }

    // The event itself. `out`, `data` and `reported` are what the automatic event before it left.
    method Run(e: Event, out: Event, data: Data, reported: State, r: Request)
      returns (resp: Response, err: Option<Error>)
      modifies this`currentState, round
      ensures DoTold(Main(table, id, old(currentState), old(round.payload), out, data, e, r),
                     resp, err, currentState, round.payload)
    {
      hide Callback, Settle, Fired, Target;
      var event, answer := out, data;
      if e in table.callbacks {
        event, answer, err := ExecCallback(e, r);
        if err.Some? {
          return Response(reported, answer), err;
        }
      }
      err := SetState(Fired(e, event));
      if err.Some? {
        return Response(reported, answer), err;
      }
      resp, err := Conclude(answer, r);
    }

    // Routes an event, runs what runs before it, the event itself, and what runs after it.
    method Do(e: Event, r: Request) returns (resp: Option<Response>, err: Option<Error>)
      modifies this`currentState, round
      ensures err.Some? || resp.Some?
      ensures resp.Some? ==>
                DoTold(Drive(table, id, old(currentState), old(round.payload), e, r),
                       resp.value, err, currentState, round.payload)
      ensures resp.None? ==>
                && currentState == old(currentState) && round.payload == old(round.payload)
                && Drive(table, id, currentState, round.payload, e, r) == Rejected(err.value)
    {
      hide Main, RunAutoEvent, DoTold;
      if (currentState, e) !in table.transitions {
        return None, Some(NoRoute);
      }
      if table.transitions[(currentState, e)].isInternal {
        return None, Some(InternalEvent);
      }
      var found, out, data, failure := ProcessAutoEvent(RunBefore, r);
      var reported := if found then currentState else NoState;
      if failure.Some? {
        FailureTold(failure.value, Response(reported, data), currentState, round.payload);
        return Some(Response(reported, data)), failure;
      }
      var answer;
      answer, err := Run(e, out, data, reported, r);
      return Some(answer), err;
    }
  }

  lemma FailureTold(e: Error, resp: Response, state: State, p: Payload)
    ensures DoTold(Rejected(e), resp, Some(e), state, p)
  {
  }

  ghost predicate AutoTold(spec: AutoResult, found: bool, out: Event, data: Data, err: Option<Error>, state: State,
      p: Payload) {
    match spec
    case NoAuto => !found && err.None? && data == NoData
    case AutoFailed(e) => found && err == Some(e)
    case AutoDone(s, p1, o, d) => found && err.None? && out == o && data == d && state == s && p == p1
  }

  // An event that succeeds leaves state and payload as specified and reports that state.
  ghost predicate DoTold(spec: DoResult, resp: Response, err: Option<Error>, state: State, p: Payload) {
    match spec
    case Rejected(e) => err == Some(e)
    case Moved(s, p1, d) => err.None? && state == s && p == p1 && resp == Response(s, d)
  }

  lemma StatesAreSources(t: Table, id: MachineId, s: State)
    requires TableOf(t, id)
    ensures (exists k :: k in t.transitions && k.0 == s) <==> Owner(s) == Some(id)
  {
    hide Declares, Rows, HoldsAutos, FirstFrom, Destinations, IsSource, Callbacks, Owner;
    SourcesAreDisjoint(id, s);
    SourceDeclares(Rows(id), s);
    if exists k :: k in t.transitions && k.0 == s {
      var k :| k in t.transitions && k.0 == s;
      assert Declares(Rows(id), s, k.1, t.transitions[(s, k.1)]);
    }
    if exists e, edge :: Declares(Rows(id), s, e, edge) {
      var e, edge :| Declares(Rows(id), s, e, edge);
      assert (s, e) in t.transitions;
    }
  }
}
