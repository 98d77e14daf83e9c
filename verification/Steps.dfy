/** The node step on a round that keeps the invariant. */
module Steps {
  import opened Names
  import opened Payloads
  import opened Ceremony
  import opened NodeStep
  import opened Moves
  import opened RoundInvariant
  import opened Reactions
  import opened Preservation
  import P = ProposalActions
  import S = SigningActions

  // ---------------------------------------------------------------- unfolding the step

  // The round is over for good: its state has no machine.
  predicate Buried(s: State) {
    s.ProposalCanceledByParticipant? || s.ProposalCanceledByTimeout? || s.DkgCanceledByTimeout?
  }

  predicate Cancelled(s: State) {
    Buried(s) || s.DkgCanceledByError?
  }

  // The message reaches the machines.
  predicate Gate(skip: bool, p: Payload, m: Message) {
    && (m.event == InitProposal || Verified(skip, p, m))
    && m.event != SignatureReconstructed && m.event != SignatureReconstructionFailed
  }

  // A failed signing is idle again when the next message comes.
  function Resumed(i: Inst): Inst {
    if i.state == SigningCanceledByError then i.(state := SigningIdle) else i
  }

  ghost function Conclude(env: Env, i: Inst, m: Message, res: DoResult, now: Time): StepOut {
    match res
    case Rejected(err) => StepOut(Some(i), None, None, Some(err))
    case Moved(s, p, data) => Finish(env, i, m, s, p, data, now)
  }

  lemma RecoverIs(i: Inst, now: Time)
    requires Live(i.state) || i.state == SigningCanceledByError
    requires i.state == SigningCanceledByError ==> !AnyDkgError(i.payload) && i.payload.signing.Some?
    ensures Recover(i, now) == Recovered(Resumed(i))
  {
    hide StateName, HasSuffix, HasPrefix, Do;
    ErrorNames(i.state);
    TimeoutNames(Resumed(i).state);
    if i.state == SigningCanceledByError {
      DoRestart(i.state, i.payload, DefaultRequest(now));
    }
  }

  lemma DeliverIs(env: Env, i: Inst, m: Message, now: Time)
    requires Live(i.state)
    ensures Deliver(env, i, m, now) == Conclude(env, i, m, Handle(i, m, now), now)
  {
    hide Do, HandOver, Handle, Finish;
    HandleIs(i, m, now);
  }

  lemma StepRuns(env: Env, skip: bool, i: Inst, m: Message, now: Time)
    requires Live(i.state) || i.state == SigningCanceledByError
    requires i.state == SigningCanceledByError ==> !AnyDkgError(i.payload) && i.payload.signing.Some?
    ensures var out := Step(env, skip, Some(i), m, now);
            if Gate(skip, i.payload, m)
            then out == Conclude(env, Resumed(i), m, Handle(Resumed(i), m, now), now)
            else out.saved == Some(i) && out.op.None? && out.posted.None?
                 && (out.err.Some? ==> out.err == Some(Unverified))
  {
    hide Recover, Deliver, Conclude, Handle, AnyDkgError;
    RecoverIs(i, now);
    DeliverIs(env, Resumed(i), m, now);
  }

  // A new round starts from an idle instance.
  lemma StepCreates(env: Env, skip: bool, m: Message, now: Time)
    ensures Step(env, skip, None, m, now) ==
            if TrimSpace(m.round) == "" then StepOut(None, None, None, Some(EmptyRound))
            else Step(env, skip, Some(Inst(GlobalIdle, EmptyPayload(TrimSpace(m.round)))), m, now)
  {
    hide Recover, Deliver, TrimSpace;
  }

  // A cancelled ceremony stays as it is, whatever arrives.
  lemma StepCancelled(env: Env, skip: bool, i: Inst, m: Message, now: Time)
    requires Cancelled(i.state) && (i.state.DkgCanceledByError? ==> AnyDkgError(i.payload))
    ensures var out := Step(env, skip, Some(i), m, now);
            out.saved == Some(i) && out.op.None? && out.posted.None? && (out.err.Some? ==> !Fatal(out.err.value))
  {
    hide StateName, HasSuffix, HasPrefix, Do, Deliver, RecoverTimeout, AnyDkgError;
    ErrorNames(i.state);
  }

  // ---------------------------------------------------------------- accepted messages

  // The machines take the request in this state.
  ghost predicate Takes(i: Inst, e: Event, r: Request) {
    var p := i.payload;
    match i.state
    case GlobalIdle => e == InitProposal && r.ProposalRequest? && Valid(r)
    case AwaitParticipants => IsReply(e) && p.sig.Some? && (CanReply(p, r) || TooLate(p, r))
    case DkgAwait(stage) =>
      && p.dkg.Some?
      && ((e == DkgConfirm(stage) && CanConfirm(stage, p, r)) || (e == DkgError(stage) && CanFail(stage, p, r)))
    case SigningIdle => e == SigningStart && CanStart(r)
    case SigningAwait => IsSign(e) && p.signing.Some? && CanSign(e, p, r)
    case _ => false
  }

  ghost predicate Accepts(i: Inst, m: Message) {
    Decode(m).Some? && Takes(i, m.event, Decode(m).value)
  }

  lemma AcceptsTakes(i: Inst, m: Message)
    requires Accepts(i, m)
    ensures Decode(m).Some? && Takes(i, m.event, Decode(m).value)
  {
  }

  // A move of the proposal machine, with the hand-over to the DKG.
  ghost function Proposed(res: DoResult, now: Time): (end: DoResult)
    ensures end.Moved? <==> res.Moved?
  {
    if res.Moved? && res.state == ProposalCollected && res.payload.sig.Some?
    then Moved(DkgAwait(Commits), Opened(res.payload, now), Invited(res.payload))
    else res
  }

  // A move of the DKG machine, with the hand-over to signing.
  ghost function Concluded(res: DoResult, now: Time): (end: DoResult)
    ensures end.Moved? <==> res.Moved?
  {
    if res.Moved? && res.state == MasterKeyCollected
    then Moved(SigningIdle, SigningOpened(res.payload, now), NoData)
    else res
  }

  lemma TakenProposal(p: Payload, r: Request, now: Time)
    requires Inv(Inst(GlobalIdle, p))
    ensures var res := ThenOpen(Propose(p, r), now);
            if r.ProposalRequest? && Valid(r)
            then res == Propose(p, r) && res.Moved? && Inv(Inst(res.state, res.payload))
            else res.Rejected? && !Fatal(res.err)
  {
    hide Settle, Valid, Roster, Open, Sorted, InvitationList;
    if r.ProposalRequest? && Valid(r) {
      FreshRoster(p, r);
      SettleFresh(P.Init(p, r).payload, P.Init(p, r).data);
    }
    ProposeKeeps(p, r);
  }

  lemma TakenReply(p: Payload, e: Event, r: Request, now: Time)
    requires p.sig.Some? && Inv(Inst(AwaitParticipants, p)) && IsReply(e) && 0 < now
    ensures var res := ThenOpen(Respond(e, p, r), now);
            if CanReply(p, r) || TooLate(p, r)
            then res == Proposed(Respond(e, p, r), now) && res.Moved? && Inv(Inst(res.state, res.payload))
            else res.Rejected? && !Fatal(res.err)
  {
    hide Inv, Roster, Respond, Open, Outcome, Opened, Invited, CanReply, TooLate;
    RespondSays(p, e, r);
    RespondKeeps(p, e, r);
    var res := Respond(e, p, r);
    if res.Moved? && res.state == ProposalCollected {
      RosterHasSig(res.payload);
      OpenSays(res.payload, now);
      OpenKeeps(res.payload, now);
    }
  }

  lemma RosterHasSig(p: Payload)
    requires Roster(p)
    ensures p.sig.Some?
  {
  }

  lemma CompleteHasSig(p: Payload)
    requires DkgComplete(p)
    ensures p.sig.Some?
  {
  }

  lemma TakenConfirm(stage: Stage, p: Payload, r: Request, now: Time)
    requires p.sig.Some? && p.dkg.Some? && SameRoster(p) && StageOpen(p, stage) && p.signing.None? && 0 < now
    ensures var res := ThenOpenSigning(Confirm(stage, p, r), now);
            if CanConfirm(stage, p, r)
            then res == Concluded(ConfirmOutcome(stage, p, r), now) && res.Moved? && Inv(Inst(res.state, res.payload))
            else res.Rejected? && !Fatal(res.err)
  {
    hide Inv, SameRoster, StageOpen, Confirm, OpenSigning, CanConfirm, ConfirmOutcome, SigningOpened, DkgComplete,
         Statused;
    OpenIsStatused(p, stage);
    ConfirmSays(stage, p, r);
    if CanConfirm(stage, p, r) {
      ConfirmKeeps(stage, p, r);
      var res := ConfirmOutcome(stage, p, r);
      if res.state == MasterKeyCollected {
        CompleteHasSig(res.payload);
        OpenSigningKeeps(res.payload, now);
      }
    }
  }

  // What the machines make of a request they take, hand-overs included.
  ghost function Result(i: Inst, e: Event, r: Request, now: Time): DoResult
    requires Inv(i) && Takes(i, e, r)
  {
    var p := i.payload;
    match i.state
    case GlobalIdle => Propose(p, r)
    case AwaitParticipants => Proposed(Respond(e, p, r), now)
    case DkgAwait(stage) =>
      if e == DkgConfirm(stage) then Concluded(ConfirmOutcome(stage, p, r), now) else Fail(stage, p, r)
    case SigningIdle => Moved(SigningAwait, Started(p, r), Asked(p, r))
    case SigningAwait => SignOutcome(e, p, r)
  }

  // The states a step passes through without saving them.
  predicate Transient(s: State) {
    s.ProposalCollected? || s.MasterKeyCollected? || s.SigningCollected?
  }

  ghost predicate Sound(res: DoResult) {
    && res.Moved?
    && (res.state == SigningCollected ==> SigningReady(res.payload) && res.data.CollectedSigns?)
    && (res.state != SigningCollected ==> Inv(Inst(res.state, res.payload)))
  }

  // Accepted messages have the described result and keep the round sound; others are refused.
  ghost predicate Handled(i: Inst, m: Message, now: Time)
    requires Inv(i)
  {
    var res := Handle(i, m, now);
    if Accepts(i, m) then res == Result(i, m.event, Decode(m).value, now) && Sound(res)
    else res.Rejected? && !Fatal(res.err)
  }

  lemma Parts(i: Inst)
    requires Inv(i)
    ensures i.state == AwaitParticipants || i.state.DkgAwait? || InSigning(i.state) ==> i.payload.sig.Some?
    ensures i.state.DkgAwait? || InSigning(i.state) ==> i.payload.dkg.Some?
    ensures InSigning(i.state) ==> i.payload.signing.Some? && SigningReady(i.payload)
    ensures i.state.DkgAwait? ==>
              SameRoster(i.payload) && i.payload.signing.None? && StageOpen(i.payload, i.state.stage)
    ensures i.state == SigningAwait ==> SigningOpen(i.payload)
  {
  }

  lemma HandleProposal(i: Inst, m: Message, now: Time)
    requires i.state == GlobalIdle && Inv(i)
    ensures Handled(i, m, now)
  {
    hide Valid, Propose, ThenOpen;
    if Decode(m).Some? {
      TakenProposal(i.payload, Decode(m).value, now);
    }
  }

  lemma HandleReply(i: Inst, m: Message, now: Time)
    requires i.state == AwaitParticipants && Inv(i) && 0 < now
    ensures Handled(i, m, now)
  {
    hide Inv, Valid, CanReply, TooLate, Respond, ThenOpen, Opened, Invited, Roster, ProposalOpen, SigningReady;
    Parts(i);
    if Decode(m).Some? && IsReply(m.event) {
      TakenReply(i.payload, m.event, Decode(m).value, now);
    }
  }

  lemma HandleStage(i: Inst, m: Message, now: Time)
    requires i.state.DkgAwait? && Inv(i) && 0 < now
    ensures Handled(i, m, now)
  {
    hide Inv, Valid, CanConfirm, CanFail, Confirm, ConfirmOutcome, Fail, ThenOpenSigning, SigningOpened, SameRoster,
         StageOpen, SigningReady;
    Parts(i);
    var stage, p := i.state.stage, i.payload;
    if Decode(m).Some? {
      TakenConfirm(stage, p, Decode(m).value, now);
      FailSays(stage, p, Decode(m).value);
    }
  }

  lemma BatchInv(p: Payload)
    requires p.signing.Some? && p.sig.Some? && SigningReady(p) && SigningOpen(p)
    ensures Inv(Inst(SigningAwait, p))
  {
    hide SigningReady, SigningOpen;
  }

  lemma HandleStart(i: Inst, m: Message, now: Time)
    requires i.state == SigningIdle && Inv(i)
    ensures Handled(i, m, now)
  {
    hide Inv, Valid, Start, Asked, SigningOpen, SigningReady, S.FreshQuorum;
    Parts(i);
    var p := i.payload;
    if Decode(m).Some? {
      StartSays(p, Decode(m).value);
      if CanStart(Decode(m).value) {
        StartStays(p, Decode(m).value);
        StartedKeeps(p, Decode(m).value);
        BatchInv(Started(p, Decode(m).value));
      }
    }
  }

  lemma HandleSign(i: Inst, m: Message, now: Time)
    requires i.state == SigningAwait && Inv(i)
    ensures Handled(i, m, now)
  {
    hide Inv, Valid, CanSign, Sign, SignOutcome, SigningOpen, SigningReady;
    Parts(i);
    var p := i.payload;
    if Decode(m).Some? && IsSign(m.event) {
      var r := Decode(m).value;
      SignSays(m.event, p, r);
      if CanSign(m.event, p, r) {
        SignKeeps(m.event, p, r);
      }
    }
  }

  lemma HandleSays(i: Inst, m: Message, now: Time)
    requires Live(i.state) && Inv(i) && 0 < now
    ensures Handled(i, m, now)
  {
    hide Inv, Handled;
    match i.state
    case GlobalIdle => HandleProposal(i, m, now);
    case AwaitParticipants => HandleReply(i, m, now);
    case DkgAwait(_) => HandleStage(i, m, now);
    case SigningIdle => HandleStart(i, m, now);
    case SigningAwait => HandleSign(i, m, now);
  }

  // ---------------------------------------------------------------- the step

  // The dump that is saved when the machines moved.
  ghost function Landed(res: DoResult): Inst
    requires res.Moved?
  {
    Inst(if res.state == SigningCollected then SigningIdle else res.state, res.payload)
  }

  ghost function Emitted(m: Message, res: DoResult): Option<Operation>
    requires res.Moved?
  {
    if NeedsOperation(res.state) && res.data != NoData then Some(Operation(m.round, res.state, res.data)) else None
  }

  // The node could not do its part: recover the signature, or expand a batch of signing tasks.
  predicate LocalFailure(e: Error) {
    e == ReconstructionFailed || e == BadTasks
  }

  lemma ConcludeSays(env: Env, i: Inst, m: Message, res: DoResult, now: Time)
    requires Sound(res) && (m.event == SigningStart ==> res.state != SigningCollected)
    ensures var out := Conclude(env, i, m, res, now);
            && (out.err.Some? ==>
                  LocalFailure(out.err.value) && out.saved == Some(i) && out.op.None? && out.posted.None?)
            && (out.err.None? ==> out.saved == Some(Landed(res)) && out.op == Emitted(m, res)
                                  && (out.posted.Some? <==> res.state == SigningCollected))
            && (res.state != SigningCollected && m.event != SigningStart ==> out.err.None?)
            && Inv(Landed(res))
  {
    hide Do, SigningReady, Inv;
    if res.state == SigningCollected {
      CollectedReady(res.payload);
      DoRestart(SigningCollected, res.payload, DefaultRequest(now));
    }
  }

  lemma StartCollectsNothing(i: Inst, m: Message, now: Time)
    requires Inv(i) && Accepts(i, m) && m.event == SigningStart
    ensures Result(i, m.event, Decode(m).value, now).Moved?
    ensures Result(i, m.event, Decode(m).value, now).state != SigningCollected
  {
    hide Inv, Decode, CanStart, Started, Asked;
  }

  lemma CollectedReady(p: Payload)
    requires SigningReady(p)
    ensures p.dkg.Some? && Inv(Inst(SigningIdle, p))
  {
  }

  // The effect of one message on a round: nothing, the signing restart, or the described result.
  ghost predicate StepEffect(env: Env, skip: bool, i: Inst, m: Message, now: Time, out: StepOut)
    requires Inv(i) && Inv(Resumed(i))
  {
    var j := Resumed(i);
    if Cancelled(i.state) || !Gate(skip, i.payload, m) then out.saved == Some(i) && out.op.None? && out.posted.None?
    else if !Accepts(j, m) then out.saved == Some(j) && out.op.None? && out.posted.None? && out.err.Some?
    else
      var res := Result(j, m.event, Decode(m).value, now);
      && res.Moved?
      && (out.err.Some? ==>
            out.saved == Some(j) && LocalFailure(out.err.value) && out.op.None? && out.posted.None?)
      && (out.err.None? ==> out.saved == Some(Landed(res)) && out.op == Emitted(m, res)
                            && (out.posted.Some? <==> res.state == SigningCollected))
      && (res.state != SigningCollected && m.event != SigningStart ==> out.err.None?)
  }

  lemma ResumedKeeps(i: Inst)
    requires Inv(i)
    ensures Inv(Resumed(i))
    ensures i.state == SigningCanceledByError ==> !AnyDkgError(i.payload) && i.payload.signing.Some?
    ensures i.state.DkgCanceledByError? ==> AnyDkgError(i.payload)
    ensures Cancelled(i.state) || Live(i.state) || i.state == SigningCanceledByError
  {
    if i.state == SigningCanceledByError {
      assert forall id | id in i.payload.dkg.value.quorum ::
          Finished(i.payload.dkg.value.quorum[id], i.payload.dkg.value.expiresAt);
    }
  }

  // One message on a round that keeps the invariant: the effect, a kept invariant, no crash and
  // no undeclared move.
  lemma StepSays(env: Env, skip: bool, i: Inst, m: Message, now: Time)
    requires Inv(i) && 0 < now
    ensures Inv(Resumed(i))
    ensures var out := Step(env, skip, Some(i), m, now);
            && StepEffect(env, skip, i, m, now, out)
            && out.saved.Some? && Inv(out.saved.value)
            && (out.err.Some? ==> !Fatal(out.err.value))
  {
    hide Step, Inv, Gate, Accepts, Result, Handle, Conclude, AnyDkgError, Landed, Emitted, Sound;
    ResumedKeeps(i);
    if Cancelled(i.state) {
      StepCancelled(env, skip, i, m, now);
    } else {
      StepRuns(env, skip, i, m, now);
      var j := Resumed(i);
      HandleSays(j, m, now);
      var res := Handle(j, m, now);
      if Accepts(j, m) {
        SoundMoves(res);
        if m.event == SigningStart {
          StartCollectsNothing(j, m, now);
        }
        ConcludeSays(env, j, m, res, now);
      } else {
        ConcludeRejected(env, j, m, res, now);
      }
    }
  }

  lemma SoundMoves(res: DoResult)
    requires Sound(res)
    ensures res.Moved?
  {
  }

  lemma ConcludeRejected(env: Env, i: Inst, m: Message, res: DoResult, now: Time)
    requires res.Rejected?
    ensures Conclude(env, i, m, res, now) == StepOut(Some(i), None, None, Some(res.err))
  {
  }
}
