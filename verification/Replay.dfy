/** A ceremony message counts once: when it shows up again later in the log it changes nothing. */
module Replay {
  import opened Names
  import opened Payloads
  import opened NodeStep
  import opened Moves
  import opened RoundInvariant
  import opened Preservation
  import opened Steps
  import opened Runs
  import opened Progress
  import D = DkgActions

  // The participant has answered the proposal, and the request is not late for a second answer.
  ghost predicate Answered(p: Payload, r: Request) {
    && p.sig.Some? && r.ReplyRequest? && r.pid in p.sig.value.quorum
    && p.sig.value.quorum[r.pid].status != SigAwait
    && r.createdAt <= p.sig.value.quorum[r.pid].updatedAt + PROPOSAL_DEADLINE
  }

  // The participant has answered this stage, or the round is past it.
  ghost predicate Passed(s: State, p: Payload, stage: Stage, r: Request) {
    && s.DkgAwait?
    && (|| Index(stage) < Index(s.stage)
        || (s.stage == stage && r.ConfirmationRequest? && p.dkg.Some? && r.pid in p.dkg.value.quorum
            && p.dkg.value.quorum[r.pid].status != Awaiting(stage)))
  }

  // A request that the round has no more use for.
  ghost predicate Spent(i: Inst, e: Event, r: Request) {
    || Cancelled(i.state) || InSigning(i.state)
    || match e
       case InitProposal => i.state != GlobalIdle
       case ConfirmProposal | DeclineProposal =>
         i.state.DkgAwait? || (i.state == AwaitParticipants && Answered(i.payload, r))
       case DkgConfirm(stage) => Passed(i.state, i.payload, stage, r)
       case _ => false
  }

  lemma SpentRefused(i: Inst, e: Event, r: Request)
    requires Spent(i, e, r) && IsCeremony(e) && !Cancelled(i.state)
    ensures !Takes(Resumed(i), e, r)
  {
    hide Valid;
  }

  // ---------------------------------------------------------------- acceptance spends

  lemma ReplySpends(p: Payload, e: Event, r: Request, now: Time)
    requires p.sig.Some? && Inv(Inst(AwaitParticipants, p)) && IsReply(e) && (CanReply(p, r) || TooLate(p, r))
    ensures Respond(e, p, r).Moved? && Spent(Landed(Proposed(Respond(e, p, r), now)), e, r)
  {
    hide Inv, Valid, Respond, Opened, Invited, Undecided;
    RespondSays(p, e, r);
  }

  lemma ConfirmSpends(stage: Stage, p: Payload, r: Request, now: Time)
    requires p.dkg.Some? && CanConfirm(stage, p, r)
    ensures Spent(Landed(Concluded(ConfirmOutcome(stage, p, r), now)), DkgConfirm(stage), r)
  {
    hide Valid, Waiting, ConfirmOutcome, D.Restatused;
    OutcomeQuorum(stage, p, r);
    ConfirmStates(stage, p, r);
  }

  // A confirmation stays, cancels, or moves strictly forward.
  lemma ConfirmStates(stage: Stage, p: Payload, r: Request)
    requires p.dkg.Some? && CanConfirm(stage, p, r)
    ensures var s := ConfirmOutcome(stage, p, r).state;
            s == DkgAwait(stage) || Cancelled(s) || s == MasterKeyCollected
            || (s.DkgAwait? && Index(s.stage) == Index(stage) + 1)
  {
    hide Valid, Waiting, D.KeysDiffer, D.Mismatched, D.Restatused, D.Collected, D.Stored;
  }

  lemma ReplyTaken(i: Inst, e: Event, r: Request, now: Time)
    requires i.state == AwaitParticipants && Inv(i) && Takes(i, e, r)
    ensures i.payload.sig.Some? && IsReply(e) && (CanReply(i.payload, r) || TooLate(i.payload, r))
    ensures Result(i, e, r, now) == Proposed(Respond(e, i.payload, r), now) && i == Inst(AwaitParticipants, i.payload)
  {
    hide Inv, Respond, CanReply, TooLate, Proposed;
  }

  lemma StageTaken(i: Inst, e: Event, r: Request, now: Time)
    requires i.state.DkgAwait? && Inv(i) && Takes(i, e, r)
    ensures i.payload.sig.Some? && i.payload.dkg.Some? && i.payload.signing.None?
    ensures (e == DkgConfirm(i.state.stage) && CanConfirm(i.state.stage, i.payload, r))
            || (e == DkgError(i.state.stage) && CanFail(i.state.stage, i.payload, r))
    ensures e == DkgConfirm(i.state.stage) ==>
              Result(i, e, r, now) == Concluded(ConfirmOutcome(i.state.stage, i.payload, r), now)
    ensures e == DkgError(i.state.stage) ==> Result(i, e, r, now) == Fail(i.state.stage, i.payload, r)
    ensures i == Inst(DkgAwait(i.state.stage), i.payload)
  {
    hide Inv, Fail, ConfirmOutcome, Concluded, CanConfirm, CanFail, SameRoster, StageOpen, SigningReady,
         SigningOpen;
    Parts(i);
  }

  // A reported error cancels the round, which spends everything.
  lemma FailSpends(stage: Stage, p: Payload, r: Request, e0: Event, r0: Request)
    requires p.sig.Some? && p.dkg.Some? && p.signing.None? && CanFail(stage, p, r)
    ensures Fail(stage, p, r).Moved? && Spent(Landed(Fail(stage, p, r)), e0, r0)
  {
    hide Fail, CanFail, Passed, Answered, Inv;
    FailSays(stage, p, r);
  }

  lemma ProposalSpends(i: Inst, e: Event, r: Request, now: Time)
    requires i.state == GlobalIdle && Inv(i) && Takes(i, e, r)
    ensures e == InitProposal && Result(i, e, r, now).Moved? && Landed(Result(i, e, r, now)).state != GlobalIdle
    ensures Spent(Landed(Result(i, e, r, now)), e, r)
  {
    hide Inv, Valid, Propose, Passed, Answered;
    assert i == Inst(GlobalIdle, i.payload);
    ProposeKeeps(i.payload, r);
    TakenProposal(i.payload, r, now);
  }

  lemma AcceptanceSpends(i: Inst, e: Event, r: Request, now: Time)
    requires Inv(i) && Takes(i, e, r) && IsCeremony(e) && 0 < now
    ensures Result(i, e, r, now).Moved? && Spent(Landed(Result(i, e, r, now)), e, r)
  {
    TakesWhere(i, e, r);
    hide Inv, Takes, Result, Spent, Landed, CanReply, TooLate, CanConfirm, CanFail, Respond, ConfirmOutcome,
         Concluded, Proposed, Fail;
    match i.state
    case GlobalIdle => ProposalSpends(i, e, r, now);
    case AwaitParticipants =>
      ReplyTaken(i, e, r, now);
      ReplySpends(i.payload, e, r, now);
    case DkgAwait(stage) =>
      StageTaken(i, e, r, now);
      if e == DkgConfirm(stage) {
        ConfirmSpends(stage, i.payload, r, now);
      } else {
        FailSpends(stage, i.payload, r, e, r);
      }
    case _ =>
  }

  // Only a live round takes an event, and only signing takes the events of signing.
  lemma TakesWhere(i: Inst, e: Event, r: Request)
    requires Takes(i, e, r)
    ensures i.state == GlobalIdle || i.state == AwaitParticipants || i.state.DkgAwait? || i.state == SigningIdle
            || i.state == SigningAwait
    ensures i.state == SigningIdle || i.state == SigningAwait ==> !IsCeremony(e) && !InCeremony(i.state)
  {
    hide Valid, CanReply, TooLate, CanConfirm, CanFail, CanStart, CanSign;
  }

  // ---------------------------------------------------------------- spent stays spent

  lemma ReplyKeepsSpent(p: Payload, e: Event, r: Request, now: Time, e0: Event, r0: Request)
    requires p.sig.Some? && Inv(Inst(AwaitParticipants, p)) && IsReply(e) && (CanReply(p, r) || TooLate(p, r))
    requires Spent(Inst(AwaitParticipants, p), e0, r0)
    ensures Respond(e, p, r).Moved? && Spent(Landed(Proposed(Respond(e, p, r), now)), e0, r0)
  {
    hide Inv, Valid, Respond, Opened, Invited, Undecided;
    RespondSays(p, e, r);
  }

  lemma ConfirmKeepsSpent(stage: Stage, p: Payload, r: Request, now: Time, e0: Event, r0: Request)
    requires p.dkg.Some? && CanConfirm(stage, p, r) && Spent(Inst(DkgAwait(stage), p), e0, r0)
    ensures Spent(Landed(Concluded(ConfirmOutcome(stage, p, r), now)), e0, r0)
  {
    hide Valid, Waiting, ConfirmOutcome, D.Restatused;
    OutcomeQuorum(stage, p, r);
    ConfirmStates(stage, p, r);
  }

  lemma ResultKeepsSpent(i: Inst, e: Event, r: Request, now: Time, e0: Event, r0: Request)
    requires Inv(i) && Takes(i, e, r) && 0 < now && Spent(i, e0, r0)
    ensures Result(i, e, r, now).Moved? && Spent(Landed(Result(i, e, r, now)), e0, r0)
  {
    TakesWhere(i, e, r);
    IdleHasNoSpent(i, e0, r0);
    hide Inv, Takes, Result, Spent, Landed, CanReply, TooLate, CanConfirm, CanFail, Respond, ConfirmOutcome,
         Concluded, Proposed, Fail;
    match i.state
    case AwaitParticipants =>
      ReplyTaken(i, e, r, now);
      ReplyKeepsSpent(i.payload, e, r, now, e0, r0);
    case DkgAwait(stage) =>
      StageTaken(i, e, r, now);
      if e == DkgConfirm(stage) {
        ConfirmKeepsSpent(stage, i.payload, r, now, e0, r0);
      } else {
        FailSpends(stage, i.payload, r, e0, r0);
      }
    case SigningIdle =>
      SigningFrame(i, e, r, now);
      InSigningSpent(Landed(Result(i, e, r, now)), e0, r0);
    case SigningAwait =>
      SigningFrame(i, e, r, now);
      InSigningSpent(Landed(Result(i, e, r, now)), e0, r0);
    case _ =>
  }

  lemma IdleHasNoSpent(i: Inst, e: Event, r: Request)
    requires Spent(i, e, r)
    ensures i.state != GlobalIdle
  {
    hide Answered;
  }

  lemma InSigningSpent(i: Inst, e: Event, r: Request)
    requires InSigning(i.state)
    ensures Spent(i, e, r)
  {
    hide Passed, Answered;
  }

  ghost predicate SavedSpent(saved: Option<Inst>, e: Event, r: Request) {
    saved.Some? && Spent(saved.value, e, r)
  }

  lemma SpentResumed(i: Inst, e: Event, r: Request)
    requires Spent(i, e, r)
    ensures Spent(Resumed(i), e, r)
  {
    hide Passed, Answered;
  }

  lemma StepKeepsSpent(env: Env, saved: Option<Inst>, x: Input, e: Event, r: Request)
    requires SavedInv(saved) && 0 < x.now && SavedSpent(saved, e, r)
    ensures SavedSpent(After(env, saved, x), e, r)
  {
    hide Inv, After, Result, Spent, Takes, Decode, Landed, Resumed;
    var i := saved.value;
    StepChoices(env, i, x);
    SpentResumed(i, e, r);
    var j := Resumed(i);
    if Decode(x.m).Some? && Takes(j, x.m.event, Decode(x.m).value) {
      ResultKeepsSpent(j, x.m.event, Decode(x.m).value, x.now, e, r);
    }
  }

  lemma {:induction false} RunKeepsSpent(env: Env, saved: Option<Inst>, ins: seq<Input>, e: Event, r: Request)
    requires SavedInv(saved) && Clocked(ins) && SavedSpent(saved, e, r)
    ensures SavedSpent(RoundRun(env, saved, ins), e, r)
    decreases |ins|
  {
    hide After, SavedInv, SavedSpent;
    if ins != [] {
      StepKeepsSpent(env, saved, ins[0], e, r);
      AfterKeeps(env, saved, ins[0]);
      RunKeepsSpent(env, After(env, saved, ins[0]), ins[1..], e, r);
    }
  }

  // An accepted step spends its message.
  lemma TookSpends(env: Env, saved: Option<Inst>, x: Input)
    requires SavedInv(saved) && 0 < x.now && Took(env, saved, x)
    ensures Decode(x.m).Some? && SavedSpent(After(env, saved, x), x.m.event, Decode(x.m).value)
  {
    hide Inv, Step, Gate, Result, Spent, Takes, Decode, TrimSpace;
    StepOnBase(env, saved, x);
    var base := Base(saved, x.m);
    ResumedKeeps(base.value);
    var j := Resumed(base.value);
    AcceptanceSpends(j, x.m.event, Decode(x.m).value, x.now);
  }

  // A message that was accepted once leaves the saved round alone when it comes again, at any
  // later point of any run; only a signing that had failed in between is restarted by it.
  lemma ReplayIsHarmless(env: Env, before: seq<Input>, x: Input, between: seq<Input>, again: Input)
    requires Clocked(before) && Clocked(between) && 0 < x.now && 0 < again.now && again.m == x.m
    requires Took(env, RoundRun(env, None, before), x)
    ensures var saved := RoundRun(env, After(env, RoundRun(env, None, before), x), between);
            && saved.Some?
            && After(env, saved, again)
               == if saved.value.state == SigningCanceledByError && Gate(again.skip, saved.value.payload, again.m)
                  then Some(Inst(SigningIdle, saved.value.payload)) else saved
  {
    hide Inv, Step, Gate, Result, Spent, Takes, Decode, RoundRun, Took, After;
    var s0 := RoundRun(env, None, before);
    RoundRunKeeps(env, None, before);
    TookSpends(env, s0, x);
    TookCeremony(env, s0, x);
    AfterKeeps(env, s0, x);
    var s1 := After(env, s0, x);
    RunKeepsSpent(env, s1, between, x.m.event, Decode(x.m).value);
    RoundRunKeeps(env, s1, between);
    SpentStep(env, RoundRun(env, s1, between), again);
  }

  lemma TookCeremony(env: Env, saved: Option<Inst>, x: Input)
    requires Took(env, saved, x)
    ensures IsCeremony(x.m.event)
  {
    hide Step;
  }

  lemma SpentStep(env: Env, saved: Option<Inst>, x: Input)
    requires SavedInv(saved) && 0 < x.now && IsCeremony(x.m.event) && Decode(x.m).Some?
    requires SavedSpent(saved, x.m.event, Decode(x.m).value)
    ensures After(env, saved, x)
            == if saved.value.state == SigningCanceledByError && Gate(x.skip, saved.value.payload, x.m)
               then Some(Inst(SigningIdle, saved.value.payload)) else saved
  {
    hide Inv, Step, Gate, Result, Spent, Takes, Decode;
    StepOnBase(env, saved, x);
    if !Cancelled(saved.value.state) {
      SpentRefused(saved.value, x.m.event, Decode(x.m).value);
    }
  }
}
