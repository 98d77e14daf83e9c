/** The three machines as one: the union of their transition tables, run by the engine's rules. */
module Ceremony {
  import opened Names
  import opened Payloads
  import ProposalActions
  import DkgActions
  import SigningActions

  datatype Transition = Transition(dst: State, isInternal: bool)

  // The row for a source state and an event, if there is one.
  function Row(s: State, e: Event): Option<Transition> {
    match e
    case InitProposal => if s == GlobalIdle then Some(Transition(AwaitParticipants, false)) else None
    case ConfirmProposal | DeclineProposal =>
      if s == AwaitParticipants then Some(Transition(AwaitParticipants, false)) else None
    case ValidateProposal => if s == AwaitParticipants then Some(Transition(AwaitParticipants, true)) else None
    case ProposalValidated => if s == AwaitParticipants then Some(Transition(ProposalCollected, true)) else None
    case ProposalTimeout =>
      if s == AwaitParticipants then Some(Transition(ProposalCanceledByTimeout, true)) else None
    case ProposalDeclined =>
      if s == AwaitParticipants then Some(Transition(ProposalCanceledByParticipant, true)) else None
    case DkgInit => if s == ProposalCollected then Some(Transition(DkgAwait(Commits), false)) else None
    case DkgConfirm(stage) => if s == DkgAwait(stage) then Some(Transition(DkgAwait(stage), false)) else None
    case DkgError(stage) =>
      if s == DkgAwait(stage) || s == DkgCanceledByError(stage)
      then Some(Transition(DkgCanceledByError(stage), false)) else None
    case DkgTimeoutInternal(stage) =>
      if s == DkgAwait(stage) then Some(Transition(DkgCanceledByTimeout(stage), true)) else None
    case DkgErrorInternal(stage) =>
      // only the master key stage declares this event
      if stage == MasterKeys && s == DkgAwait(stage)
      then Some(Transition(DkgCanceledByError(stage), true)) else None
    case DkgValidate(stage) => if s == DkgAwait(stage) then Some(Transition(DkgAwait(stage), true)) else None
    case DkgConfirmedInternal(stage) =>
      if s == DkgAwait(stage) then
        Some(Transition(if stage == MasterKeys then MasterKeyCollected else DkgAwait(NextStage(stage)), true))
      else None
    case SigningInit => if s == MasterKeyCollected then Some(Transition(SigningIdle, false)) else None
    case SigningStart => if s == SigningIdle then Some(Transition(SigningAwait, false)) else None
    case PartialSign | PartialSignError =>
      if s == SigningAwait then Some(Transition(SigningAwait, false)) else None
    case SigningValidate => if s == SigningAwait then Some(Transition(SigningAwait, true)) else None
    case SigningTimeoutInternal =>
      if s == SigningAwait then Some(Transition(SigningCanceledByTimeout, true)) else None
    case SigningErrorInternal =>
      if s == SigningAwait then Some(Transition(SigningCanceledByError, true)) else None
    case SigningConfirmedInternal => if s == SigningAwait then Some(Transition(SigningCollected, true)) else None
    case SigningRestart =>
      if s == SigningCollected || s == SigningCanceledByTimeout || s == SigningCanceledByError
      then Some(Transition(SigningIdle, false)) else None
    case _ => None
  }

  // The event that runs by itself after a transition into a state.
  function AutoEvent(s: State): Event {
    match s
    case AwaitParticipants => ValidateProposal
    case DkgAwait(stage) => DkgValidate(stage)
    case SigningAwait => SigningValidate
    case _ => NoEvent
  }

  // The callback of an event, run by the machine that declares the event.
  ghost function Execute(e: Event, p: Payload, r: Request): CallbackResult {
    match MachineOf(e)
    case ProposalMachine => ProposalActions.Execute(e, p, r)
    case DkgMachine => DkgActions.Execute(e, p, r)
    case SigningMachine => SigningActions.Execute(e, p, r)
  }

  // The machine that declares an event.
  function MachineOf(e: Event): MachineId {
    match e
    case DkgInit | DkgConfirm(_) | DkgError(_) | DkgValidate(_) => DkgMachine
    case DkgTimeoutInternal(_) | DkgErrorInternal(_) | DkgConfirmedInternal(_) => DkgMachine
    case SigningInit | SigningStart | PartialSign | PartialSignError | SigningValidate => SigningMachine
    case SigningTimeoutInternal | SigningErrorInternal | SigningConfirmedInternal => SigningMachine
    case SigningRestart => SigningMachine
    case _ => ProposalMachine
  }

  datatype DoResult = Moved(state: State, payload: Payload, data: Data) | Rejected(err: Error)

  function Fired(called: Event, out: Event): Event {
    if out == NoEvent then called else out
  }

  // One event from outside: route it, run its callback, move, then run the automatic event of
  // the state it moved to.
  ghost function Do(s: State, p: Payload, e: Event, r: Request): DoResult {
    match Row(s, e)
    case None => Rejected(NoRoute)
    case Some(row) =>
      if row.isInternal then Rejected(InternalEvent)
      else
        match Execute(e, p, r)
        case Refuse(err) => Rejected(err)
        case Reply(out, data, p1) =>
          match Row(s, Fired(e, out))
          case None => Rejected(UndeclaredTransition)
          case Some(row1) => RunAuto(row1.dst, p1, data, r)
  }

  ghost function RunAuto(s: State, p: Payload, data: Data, r: Request): DoResult {
    if AutoEvent(s) == NoEvent then Moved(s, p, data)
    else
      match Execute(AutoEvent(s), p, r)
      case Refuse(err) => Rejected(err)
      case Reply(out, autoData, p1) =>
        match Row(s, Fired(AutoEvent(s), out))
        case None => Rejected(UndeclaredTransition)
        case Some(row) => Moved(row.dst, p1, if autoData == NoData then data else autoData)
  }
}
