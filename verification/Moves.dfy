/** What each external event does, unfolded from the tables. */
module Moves {
  import opened Names
  import opened Payloads
  import opened Ceremony
  import P = ProposalActions
  import D = DkgActions
  import S = SigningActions

  predicate IsReply(e: Event) { e == ConfirmProposal || e == DeclineProposal }
  predicate IsSign(e: Event) { e == PartialSign || e == PartialSignError }

  predicate InProposal(s: State) {
    s.AwaitParticipants? || s.ProposalCanceledByParticipant? || s.ProposalCanceledByTimeout? || s.ProposalCollected?
  }

  predicate InStage(s: State, stage: Stage) {
    || s == DkgAwait(stage) || s == DkgCanceledByError(stage) || s == DkgCanceledByTimeout(stage)
    || (stage == MasterKeys && s == MasterKeyCollected)
    || (stage != MasterKeys && s == DkgAwait(NextStage(stage)))
  }

  predicate InSigning(s: State) {
    s.SigningIdle? || s.SigningAwait? || s.SigningCanceledByTimeout? || s.SigningCanceledByError? || s.SigningCollected?
  }

  // ---------------------------------------------------------------- the automatic validations

  function ProposalTarget(out: Event): State {
    match out
    case ProposalTimeout => ProposalCanceledByTimeout
    case ProposalDeclined => ProposalCanceledByParticipant
    case ProposalValidated => ProposalCollected
    case _ => AwaitParticipants
  }

  ghost function Settle(p: Payload, data: Data): (res: DoResult)
    ensures res.Moved? ==> InProposal(res.state)
  {
    match P.Validate(p)
    case Refuse(err) => Rejected(err)
    case Reply(out, auto, p1) => Moved(ProposalTarget(out), p1, if auto == NoData then data else auto)
  }

  function StageTarget(stage: Stage, out: Event): State {
    match out
    case DkgTimeoutInternal(_) => DkgCanceledByTimeout(stage)
    case DkgErrorInternal(_) => DkgCanceledByError(stage)
    case DkgConfirmedInternal(_) =>
      if stage == MasterKeys then MasterKeyCollected else DkgAwait(NextStage(stage))
    case _ => DkgAwait(stage)
  }

  ghost function SettleStage(stage: Stage, p: Payload, data: Data): (res: DoResult)
    ensures res.Moved? ==> InStage(res.state, stage)
  {
    match D.Validate(stage, p)
    case Refuse(err) => Rejected(err)
    case Reply(out, auto, p1) =>
      if out == DkgErrorInternal(stage) && stage != MasterKeys then Rejected(UndeclaredTransition)
      else Moved(StageTarget(stage, out), p1, if auto == NoData then data else auto)
  }

  function SigningTarget(out: Event): State {
    match out
    case SigningTimeoutInternal => SigningCanceledByTimeout
    case SigningErrorInternal => SigningCanceledByError
    case SigningConfirmedInternal => SigningCollected
    case _ => SigningAwait
  }

  ghost function SettleSigning(p: Payload, data: Data): (res: DoResult)
    ensures res.Moved? ==> InSigning(res.state)
  {
    match S.Validate(p)
    case Refuse(err) => Rejected(err)
    case Reply(out, auto, p1) => Moved(SigningTarget(out), p1, if auto == NoData then data else auto)
  }

  lemma SettleIs(p: Payload, data: Data, r: Request)
    ensures RunAuto(AwaitParticipants, p, data, r) == Settle(p, data)
  {
    hide P.Validate, P.Init, P.Respond, D.Execute, S.Execute;
  }

  lemma SettleStageIs(stage: Stage, p: Payload, data: Data, r: Request)
    ensures RunAuto(DkgAwait(stage), p, data, r) == SettleStage(stage, p, data)
  {
    hide D.Validate, D.Init, D.Receive, D.ConfirmationError, P.Execute, S.Execute;
  }

  lemma SettleSigningIs(p: Payload, data: Data, r: Request)
    ensures RunAuto(SigningAwait, p, data, r) == SettleSigning(p, data)
  {
    hide S.Validate, S.Init, S.Start, S.Receive, S.ConfirmationError, P.Execute, D.Execute;
  }

  // ---------------------------------------------------------------- the external events

  ghost function Propose(p: Payload, r: Request): (res: DoResult)
    ensures res.Moved? ==> InProposal(res.state)
  {
    match P.Init(p, r)
    case Refuse(err) => Rejected(err)
    case Reply(_, data, p1) => Settle(p1, data)
  }

  ghost function Respond(e: Event, p: Payload, r: Request): (res: DoResult)
    ensures res.Moved? ==> InProposal(res.state)
  {
    match P.Respond(e, p, r)
    case Refuse(err) => Rejected(err)
    case Reply(out, _, p1) =>
      if out == ProposalTimeout then Moved(ProposalCanceledByTimeout, p1, NoData) else Settle(p1, NoData)
  }

  ghost function Open(p: Payload, r: Request): (res: DoResult)
    ensures res.Moved? ==> InStage(res.state, Commits)
  {
    match D.Init(p, r)
    case Refuse(err) => Rejected(err)
    case Reply(_, data, p1) => SettleStage(Commits, p1, data)
  }

  ghost function Confirm(stage: Stage, p: Payload, r: Request): (res: DoResult)
    ensures res.Moved? ==> InStage(res.state, stage)
  {
    match D.Receive(stage, p, r)
    case Refuse(err) => Rejected(err)
    case Reply(_, _, p1) => SettleStage(stage, p1, NoData)
  }

  ghost function Fail(stage: Stage, p: Payload, r: Request): (res: DoResult)
    ensures res.Moved? ==> res.state == DkgCanceledByError(stage) && res.data == NoData
  {
    match D.ConfirmationError(stage, p, r)
    case Refuse(err) => Rejected(err)
    case Reply(_, _, p1) => Moved(DkgCanceledByError(stage), p1, NoData)
  }

  ghost function OpenSigning(p: Payload, r: Request): (res: DoResult)
    ensures res.Moved? ==> res.state == SigningIdle && res.data == NoData
  {
    match S.Init(p, r)
    case Refuse(err) => Rejected(err)
    case Reply(_, _, p1) => Moved(SigningIdle, p1, NoData)
  }

  ghost function Start(p: Payload, r: Request): (res: DoResult)
    ensures res.Moved? ==> InSigning(res.state)
  {
    match S.Start(p, r)
    case Refuse(err) => Rejected(err)
    case Reply(_, data, p1) => SettleSigning(p1, data)
  }

  ghost function Sign(e: Event, p: Payload, r: Request): (res: DoResult)
    ensures res.Moved? ==> InSigning(res.state)
  {
    match (if e == PartialSign then S.Receive(p, r) else S.ConfirmationError(p, r))
    case Refuse(err) => Rejected(err)
    case Reply(_, _, p1) => SettleSigning(p1, NoData)
  }

  lemma DoPropose(p: Payload, r: Request)
    ensures Do(GlobalIdle, p, InitProposal, r) == Propose(p, r)
  {
    hide P.Validate, P.Init, P.Respond, D.Execute, S.Execute, RunAuto, Settle;
    var res := P.Init(p, r);
    if res.Reply? {
      SettleIs(res.payload, res.data, r);
    }
  }

  lemma DoRespond(p: Payload, e: Event, r: Request)
    requires IsReply(e)
    ensures Do(AwaitParticipants, p, e, r) == Respond(e, p, r)
  {
    var res := P.Respond(e, p, r);
    if res.Reply? && res.out == NoEvent {
      SettleIs(res.payload, res.data, r);
    }
    hide P.Validate, P.Init, P.Respond, D.Execute, S.Execute, Settle;
  }

  lemma DoOpen(p: Payload, r: Request)
    ensures Do(ProposalCollected, p, DkgInit, r) == Open(p, r)
  {
    hide D.Validate, D.Init, D.Receive, D.ConfirmationError, P.Execute, S.Execute, RunAuto, SettleStage;
    var res := D.Init(p, r);
    if res.Reply? {
      SettleStageIs(Commits, res.payload, res.data, r);
    }
  }

  lemma DoConfirm(stage: Stage, p: Payload, r: Request)
    ensures Do(DkgAwait(stage), p, DkgConfirm(stage), r) == Confirm(stage, p, r)
  {
    hide D.Validate, D.Init, D.Receive, D.ConfirmationError, P.Execute, S.Execute, RunAuto, SettleStage;
    var res := D.Receive(stage, p, r);
    if res.Reply? {
      SettleStageIs(stage, res.payload, res.data, r);
    }
  }

  lemma DoFail(stage: Stage, p: Payload, r: Request)
    ensures Do(DkgAwait(stage), p, DkgError(stage), r) == Fail(stage, p, r)
  {
    hide D.Validate, D.Init, D.Receive, D.ConfirmationError, P.Execute, S.Execute;
  }

  lemma DoOpenSigning(p: Payload, r: Request)
    ensures Do(MasterKeyCollected, p, SigningInit, r) == OpenSigning(p, r)
  {
    hide S.Validate, S.Init, S.Start, S.Receive, S.ConfirmationError, P.Execute, D.Execute;
  }

  lemma DoStart(p: Payload, r: Request)
    ensures Do(SigningIdle, p, SigningStart, r) == Start(p, r)
  {
    hide S.Validate, S.Init, S.Start, S.Receive, S.ConfirmationError, P.Execute, D.Execute, RunAuto, SettleSigning;
    var res := S.Start(p, r);
    if res.Reply? {
      SettleSigningIs(res.payload, res.data, r);
    }
  }

  lemma DoSign(p: Payload, e: Event, r: Request)
    requires IsSign(e)
    ensures Do(SigningAwait, p, e, r) == Sign(e, p, r)
  {
    hide S.Validate, S.Init, S.Start, S.Receive, S.ConfirmationError, P.Execute, D.Execute, RunAuto, SettleSigning;
    var res := if e == PartialSign then S.Receive(p, r) else S.ConfirmationError(p, r);
    if res.Reply? {
      SettleSigningIs(res.payload, res.data, r);
    }
  }

  lemma DoRestart(s: State, p: Payload, r: Request)
    requires s == SigningCollected || s == SigningCanceledByError || s == SigningCanceledByTimeout
    ensures Do(s, p, SigningRestart, r) == Moved(SigningIdle, p, NoData)
  {
    hide S.Validate, S.Init, S.Start, S.Receive, S.ConfirmationError, P.Execute, D.Execute;
  }
}
