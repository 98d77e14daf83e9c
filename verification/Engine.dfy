/** The engine that runs an event on one machine's table. */
module Engine {
  import opened Names
  import opened Payloads
  import opened Ceremony
  import opened Tables
  import ProposalActions
  import DkgActions
  import SigningActions

  // The callback of an event on a machine; an event without one changes nothing.
  ghost function Callback(id: MachineId, callbacks: set<Event>, e: Event, p: Payload, r: Request): CallbackResult {
    if e !in callbacks then Reply(NoEvent, NoData, p)
    else
      match id
      case ProposalMachine => ProposalActions.Execute(e, p, r)
      case DkgMachine => DkgActions.Execute(e, p, r)
      case SigningMachine => SigningActions.Execute(e, p, r)
  }

  // Where an event leads from a state.
  function Target(t: Table, s: State, e: Event): Option<State> {
    if (s, e) in t.transitions then Some(t.transitions[(s, e)].dst) else None
  }

  // The automatic event of a state in a run mode; every row has a name.
  function AutoOf(t: Table, s: State, mode: RunMode): Option<Event> {
    if (s, mode) in t.autos then Some(t.autos[(s, mode)].event) else None
  }

  datatype AutoResult = NoAuto | AutoFailed(err: Error)
    | AutoDone(state: State, payload: Payload, out: Event, data: Data)

  ghost function RunAutoEvent(t: Table, id: MachineId, mode: RunMode, s: State, p: Payload, r: Request): AutoResult {
    match AutoOf(t, s, mode)
    case None => NoAuto
    case Some(e) =>
      match Callback(id, t.callbacks, e, p, r)
      case Refuse(err) => AutoFailed(err)
      case Reply(out, data, p1) =>
        match Target(t, s, Fired(e, out))
        case None => AutoFailed(UndeclaredTransition)
        case Some(dst) => AutoDone(dst, p1, out, data)
  }

  ghost function Settle(t: Table, id: MachineId, s: State, p: Payload, data: Data, r: Request): DoResult {
    match RunAutoEvent(t, id, RunAfter, s, p, r)
    case NoAuto => Moved(s, p, data)
    case AutoFailed(err) => Rejected(err)
    case AutoDone(s1, p1, _, autoData) => Moved(s1, p1, if autoData == NoData then data else autoData)
  }

  // The event itself, after its automatic predecessor. `before` is what the predecessor returned;
  // it decides the transition when the event has no callback.
  ghost function Main(t: Table, id: MachineId, s: State, p: Payload, before: Event, beforeData: Data,
                      e: Event, r: Request): DoResult
  {
    match if e in t.callbacks then Callback(id, t.callbacks, e, p, r) else Reply(before, beforeData, p)
    case Refuse(err) => Rejected(err)
    case Reply(out, data, p1) =>
      match Target(t, s, Fired(e, out))
      case None => Rejected(UndeclaredTransition)
      case Some(dst) => Settle(t, id, dst, p1, data, r)
  }

  ghost function Drive(t: Table, id: MachineId, s: State, p: Payload, e: Event, r: Request): DoResult {
    if Target(t, s, e).None? then Rejected(NoRoute)
    else if t.transitions[(s, e)].isInternal then Rejected(InternalEvent)
    else
      match RunAutoEvent(t, id, RunBefore, s, p, r)
      case NoAuto => Main(t, id, s, p, NoEvent, NoData, e, r)
      case AutoFailed(err) => Rejected(err)
      case AutoDone(s1, p1, out, data) => Main(t, id, s1, p1, out, data, e, r)
  }
}
