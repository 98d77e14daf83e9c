/** The three machines, each run on the states it owns, behave as the union. */
module EngineFacts {
  import opened Names
  import opened Payloads
  import opened Ceremony
  import opened Tables
  import opened TableFacts
  import opened Engine
  import ProposalActions
  import DkgActions
  import SigningActions

  ghost predicate TableOf(t: Table, id: MachineId) {
    Holds(t, Initial(id), Rows(id), Callbacks(id))
  }

  // A machine finds an edge exactly when it is the union table's edge of one of its own events.
  lemma EdgesAreUnion(t: Table, id: MachineId, s: State, e: Event)
    requires TableOf(t, id)
    ensures (s, e) in t.transitions <==> MachineOf(e) == id && Row(s, e).Some?
    ensures (s, e) in t.transitions ==>
              && t.transitions[(s, e)].dst == Row(s, e).value.dst
              && t.transitions[(s, e)].isInternal == Row(s, e).value.isInternal
  {
    hide Declares, Row, MachineOf, Rows, HoldsAutos, FirstFrom, Destinations, IsSource;
    if (s, e) in t.transitions {
      TablesAreTheUnion(id, s, e, t.transitions[(s, e)]);
    }
    if UnionEdge(s, e).Some? {
      TablesAreTheUnion(id, s, e, UnionEdge(s, e).value);
    }
  }

  lemma AutosAreUnion(t: Table, id: MachineId, s: State)
    requires TableOf(t, id)
    ensures (s, RunBefore) !in t.autos
    ensures (s, RunAfter) in t.autos <==> AutoEvent(s) != NoEvent && MachineOf(AutoEvent(s)) == id
    ensures (s, RunAfter) in t.autos ==> t.autos[(s, RunAfter)].event == AutoEvent(s)
  {
    hide DeclaresAuto, MachineOf, Rows, HoldsTransitions, FirstFrom, Destinations, IsSource, AutoEvent;
    if (s, RunBefore) in t.autos {
      AutosAreTheUnion(id, s, RunBefore, t.autos[(s, RunBefore)]);
    }
    if (s, RunAfter) in t.autos {
      AutosAreTheUnion(id, s, RunAfter, t.autos[(s, RunAfter)]);
    }
    AutosAreTheUnion(id, s, RunAfter, Edge(AutoEvent(s), s, true, true, RunAfter));
  }

  lemma CallbacksAreUnion(id: MachineId, e: Event, p: Payload, r: Request)
    requires MachineOf(e) == id
    ensures Callback(id, Callbacks(id), e, p, r) == Execute(e, p, r)
  {
    hide ProposalActions.Init, ProposalActions.Respond, ProposalActions.Validate, DkgActions.Init,
         DkgActions.Receive, DkgActions.Validate, DkgActions.ConfirmationError, SigningActions.Init,
         SigningActions.Start, SigningActions.Receive, SigningActions.Validate, SigningActions.ConfirmationError,
         SigningActions.Restart;
    CallbackEvents(id, e);
  }

  predicate HasCallback(e: Event) {
    match e
    case InitProposal | ConfirmProposal | DeclineProposal | ValidateProposal => true
    case DkgInit | DkgConfirm(_) | DkgError(_) | DkgValidate(_) => true
    case SigningInit | SigningStart | PartialSign | PartialSignError | SigningValidate | SigningRestart => true
    case _ => false
  }

  lemma CallbackEvents(id: MachineId, e: Event)
    requires MachineOf(e) == id
    ensures e in Callbacks(id) <==> HasCallback(e)
  {
    if e.DkgConfirm? || e.DkgError? || e.DkgValidate? {
      assert e.stage == Commits || e.stage == Deals || e.stage == Responses || e.stage == MasterKeys;
    }
  }

  predicate Owns(id: MachineId, s: State) {
    Owner(s) == Some(id)
  }

  lemma RowOwners(id: MachineId, s: State, e: Event)
    requires Owns(id, s)
    ensures Row(s, e).Some? ==> MachineOf(e) == id
  {
    hide Row, MachineOf, Owner;
    RowOwner(s, e);
  }

  // From a state it owns, a machine takes every edge of the union.
  lemma OwnedEdges(t: Table, id: MachineId, s: State, e: Event)
    requires TableOf(t, id) && Owns(id, s)
    ensures Target(t, s, e) == if Row(s, e).Some? then Some(Row(s, e).value.dst) else None
    ensures Target(t, s, e).Some? ==> t.transitions[(s, e)].isInternal == Row(s, e).value.isInternal
  {
    hide Row, MachineOf, TableOf, Owns;
    EdgesAreUnion(t, id, s, e);
    RowOwners(id, s, e);
  }

  lemma AutoOwner(s: State)
    ensures AutoEvent(s) != NoEvent ==> Owns(MachineOf(AutoEvent(s)), s)
  {
  }

  // A machine runs the automatic events of the states it owns, all of them afterwards.
  lemma OwnedAutos(t: Table, id: MachineId, s: State)
    requires TableOf(t, id) && (Owns(id, s) || AutoEvent(s) == NoEvent)
    ensures AutoOf(t, s, RunBefore) == None
    ensures AutoOf(t, s, RunAfter) == if AutoEvent(s) == NoEvent then None else Some(AutoEvent(s))
    ensures AutoEvent(s) != NoEvent ==> MachineOf(AutoEvent(s)) == id
  {
    hide MachineOf, TableOf, Owner, AutoEvent;
    AutosAreUnion(t, id, s);
    AutoOwner(s);
  }

  lemma TableCallbacks(t: Table, id: MachineId)
    requires TableOf(t, id)
    ensures t.callbacks == Callbacks(id)
  {
    hide Rows, HoldsTransitions, HoldsAutos, FirstFrom, Destinations, IsSource, Callbacks;
  }

  // What the table finds for a state and an event is what the union finds.
  ghost predicate SameTarget(t: Table, s: State, e: Event) {
    Target(t, s, e) == if Row(s, e).Some? then Some(Row(s, e).value.dst) else None
  }

  lemma SettleAlike(t: Table, id: MachineId, s: State, p: Payload, data: Data, r: Request)
    requires AutoOf(t, s, RunAfter) == if AutoEvent(s) == NoEvent then None else Some(AutoEvent(s))
    requires AutoEvent(s) != NoEvent ==>
               var res := Execute(AutoEvent(s), p, r);
               && Callback(id, t.callbacks, AutoEvent(s), p, r) == res
               && (res.Reply? ==> SameTarget(t, s, Fired(AutoEvent(s), res.out)))
    ensures Settle(t, id, s, p, data, r) == RunAuto(s, p, data, r)
  {
    hide Row, Execute, Callback, AutoEvent, Fired, Target, AutoOf;
  }

  lemma SettleIsUnion(t: Table, id: MachineId, s: State, p: Payload, data: Data, r: Request)
    requires TableOf(t, id) && (Owns(id, s) || AutoEvent(s) == NoEvent)
    ensures Settle(t, id, s, p, data, r) == RunAuto(s, p, data, r)
  {
    hide Row, MachineOf, TableOf, Owns, Execute, Callback, AutoEvent, Callbacks, Fired, Target, AutoOf, Settle,
         RunAuto;
    OwnedAutos(t, id, s);
    TableCallbacks(t, id);
    if AutoEvent(s) != NoEvent {
      CallbacksAreUnion(id, AutoEvent(s), p, r);
      var res := Execute(AutoEvent(s), p, r);
      if res.Reply? {
        OwnedEdges(t, id, s, Fired(AutoEvent(s), res.out));
      }
    }
    SettleAlike(t, id, s, p, data, r);
  }

  // A machine moves to a state of its own or to one without automatic events.
  lemma MovesWithin(id: MachineId, s: State, e: Event)
    requires Owns(id, s)
    ensures Row(s, e).Some? ==> Owns(id, Row(s, e).value.dst) || AutoEvent(Row(s, e).value.dst) == NoEvent
  {
  }

  ghost predicate SameRoute(t: Table, id: MachineId, s: State, p: Payload, e: Event, r: Request) {
    && SameTarget(t, s, e) && SameKind(t, s, e) && AutoOf(t, s, RunBefore) == None
    && (Row(s, e).Some? ==> Callback(id, t.callbacks, e, p, r) == Execute(e, p, r) && Silent(id, t.callbacks, e, p, r))
  }

  ghost predicate SameKind(t: Table, s: State, e: Event) {
    Target(t, s, e).Some? ==> Row(s, e).Some? && t.transitions[(s, e)].isInternal == Row(s, e).value.isInternal
  }

  ghost predicate Silent(id: MachineId, callbacks: set<Event>, e: Event, p: Payload, r: Request) {
    e !in callbacks ==> Callback(id, callbacks, e, p, r) == Reply(NoEvent, NoData, p)
  }

  ghost predicate SameSettle(t: Table, id: MachineId, s: State, p: Payload, data: Data, r: Request) {
    Settle(t, id, s, p, data, r) == RunAuto(s, p, data, r)
  }

  // Whatever the callback of an event decides, the machine and the union follow it alike.
  ghost predicate SameMove(t: Table, id: MachineId, s: State, p: Payload, e: Event, r: Request) {
    var res := Execute(e, p, r);
    res.Reply? ==>
      var fired := Fired(e, res.out);
      && SameTarget(t, s, fired)
      && (Row(s, fired).Some? ==> SameSettle(t, id, Row(s, fired).value.dst, res.payload, res.data, r))
  }

  lemma DriveAlike(t: Table, id: MachineId, s: State, p: Payload, e: Event, r: Request)
    requires SameRoute(t, id, s, p, e, r) && SameMove(t, id, s, p, e, r)
    ensures Drive(t, id, s, p, e, r) == Do(s, p, e, r)
  {
    hide Row, Execute, Callback, AutoEvent, Fired, Target, AutoOf, Settle, RunAuto;
  }

  lemma OwnedTarget(t: Table, id: MachineId, s: State, e: Event)
    requires TableOf(t, id) && Owns(id, s)
    ensures SameTarget(t, s, e)
  {
    hide Row, TableOf, Owns, Target;
    OwnedEdges(t, id, s, e);
  }

  lemma OwnedKind(t: Table, id: MachineId, s: State, e: Event)
    requires TableOf(t, id) && Owns(id, s)
    ensures SameKind(t, s, e)
  {
    hide Row, TableOf, Owns;
    OwnedEdges(t, id, s, e);
  }

  lemma OwnedCallback(t: Table, id: MachineId, s: State, p: Payload, e: Event, r: Request)
    requires TableOf(t, id) && Owns(id, s)
    ensures Row(s, e).Some? ==>
              Callback(id, t.callbacks, e, p, r) == Execute(e, p, r) && Silent(id, t.callbacks, e, p, r)
  {
    hide Row, MachineOf, TableOf, Owns, Execute, Callback, Callbacks, Silent;
    TableCallbacks(t, id);
    RowOwners(id, s, e);
    NoCallback(id, t.callbacks, e, p, r);
    if Row(s, e).Some? {
      CallbacksAreUnion(id, e, p, r);
    }
  }

  lemma OwnedRoute(t: Table, id: MachineId, s: State, p: Payload, e: Event, r: Request)
    requires TableOf(t, id) && Owns(id, s)
    ensures SameRoute(t, id, s, p, e, r)
  {
    hide TableOf, Owns, SameTarget, SameKind, Silent, Execute, Callback, Row, AutoOf, AutoEvent, MachineOf;
    OwnedAutos(t, id, s);
    OwnedTarget(t, id, s, e);
    OwnedKind(t, id, s, e);
    OwnedCallback(t, id, s, p, e, r);
  }

  lemma OwnedSettle(t: Table, id: MachineId, s: State, fired: Event, p: Payload, data: Data, r: Request)
    requires TableOf(t, id) && Owns(id, s) && Row(s, fired).Some?
    ensures SameSettle(t, id, Row(s, fired).value.dst, p, data, r)
  {
    hide Row, TableOf, Owns, RunAuto, AutoEvent, Settle;
    MovesWithin(id, s, fired);
    SettleIsUnion(t, id, Row(s, fired).value.dst, p, data, r);
  }

  lemma OwnedMove(t: Table, id: MachineId, s: State, p: Payload, e: Event, r: Request, fired: Event,
      res: CallbackResult)
    requires TableOf(t, id) && Owns(id, s) && res.Reply?
    ensures SameTarget(t, s, fired)
    ensures Row(s, fired).Some? ==> SameSettle(t, id, Row(s, fired).value.dst, res.payload, res.data, r)
  {
    hide Row, TableOf, Owns, SameTarget, SameSettle;
    OwnedTarget(t, id, s, fired);
    if Row(s, fired).Some? {
      OwnedSettle(t, id, s, fired, res.payload, res.data, r);
    }
  }

  lemma OwnedMoves(t: Table, id: MachineId, s: State, p: Payload, e: Event, r: Request)
    requires TableOf(t, id) && Owns(id, s)
    ensures SameMove(t, id, s, p, e, r)
  {
    hide Row, TableOf, Owns, Execute, Fired, SameTarget, SameSettle;
    var res := Execute(e, p, r);
    if res.Reply? {
      OwnedMove(t, id, s, p, e, r, Fired(e, res.out), res);
    }
  }

  // Run on a state it owns, each machine does what the union does.
  lemma MachinesAreTheUnion(t: Table, id: MachineId, s: State, p: Payload, e: Event, r: Request)
    requires TableOf(t, id) && Owns(id, s)
    ensures Drive(t, id, s, p, e, r) == Do(s, p, e, r)
  {
    hide TableOf, Owns, SameRoute, SameMove, Drive, Do;
    OwnedRoute(t, id, s, p, e, r);
    OwnedMoves(t, id, s, p, e, r);
    DriveAlike(t, id, s, p, e, r);
  }

  lemma NoCallback(id: MachineId, callbacks: set<Event>, e: Event, p: Payload, r: Request)
    ensures Silent(id, callbacks, e, p, r)
  {
  }
}
