/** Exactly which messages a round accepts, in terms of their signatures and data. */
module Admission {
  import opened Names
  import opened Payloads
  import opened NodeStep
  import opened Ceremony
  import opened Moves
  import opened Reactions
  import opened RoundInvariant
  import opened Preservation
  import opened Steps
  import opened Runs
  import opened History
  import opened NodeThreshold
  import NoReturn
  import Progress
  import Provenance
  import Safety
  import P = ProposalActions
  import D = DkgActions

  // ---------------------------------------------------------------- by state, event and data

  // A participant of the proposal may still answer it, or answers too late.
  ghost predicate MayReply(p: Payload, r: Request) {
    && r.ReplyRequest? && Valid(r) && p.sig.Some? && r.pid in p.sig.value.quorum
    && (p.sig.value.quorum[r.pid].status == SigAwait
        || p.sig.value.quorum[r.pid].updatedAt + PROPOSAL_DEADLINE < r.createdAt)
  }

  // The DKG awaits this participant's answer to the stage.
  ghost predicate AwaitsOf(p: Payload, stage: Stage, pid: int) {
    p.dkg.Some? && pid in p.dkg.value.quorum && p.dkg.value.quorum[pid].status == Awaiting(stage)
  }

  ghost predicate BatchAwaits(p: Payload, pid: int) {
    p.signing.Some? && pid in p.signing.value.quorum && p.signing.value.quorum[pid].status == SigningAwaitSigns
  }

  // What a round takes in its state.
  ghost predicate Admits(env: Env, i: Inst, m: Message) {
    var p, r := i.payload, m.data;
    match i.state
    case GlobalIdle => m.event == InitProposal && r.ProposalRequest? && Valid(r)
    case AwaitParticipants => (m.event == ConfirmProposal || m.event == DeclineProposal) && MayReply(p, r)
    case DkgAwait(stage) =>
      || (m.event == DkgConfirm(stage) && r.ConfirmationRequest? && r.stage == stage && Valid(r)
          && AwaitsOf(p, stage, r.pid))
      || (m.event == DkgError(stage) && r.DkgErrorRequest? && Valid(r) && AwaitsOf(p, stage, r.pid))
    case SigningIdle | SigningCanceledByError =>
      m.event == SigningStart && r.SigningStartRequest? && Valid(r) && env.tasksExpand(r.tasks)
    case SigningAwait =>
      || (m.event == PartialSign && r.PartialSignsRequest? && Valid(r) && BatchAwaits(p, r.pid))
      || (m.event == PartialSignError && r.SigningErrorRequest? && Valid(r) && BatchAwaits(p, r.pid))
    case _ => false
  }

  // Signatures are off, or the message is signed for the round, or needs no signature.
  ghost predicate Trusted(x: Input, p: Payload) {
    x.m.event == InitProposal || x.skip || Safety.SignedFor(p, x.m)
  }

  lemma GateIs(x: Input, p: Payload)
    ensures Gate(x.skip, p, x.m)
            <==> Trusted(x, p) && x.m.event != SignatureReconstructed && x.m.event != SignatureReconstructionFailed
  {
  }

  // The events that the tables take, with the data they need.
  lemma AdmitsTakes(env: Env, i: Inst, m: Message)
    requires Inv(i)
    ensures Accepts(Resumed(i), m)
            && (m.event == SigningStart ==> m.data.SigningStartRequest? && env.tasksExpand(m.data.tasks))
            <==> Admits(env, i, m)
  {
    hide Valid, SameRoster, StageOpen, SigningReady, SigningOpen, Inv;
    Parts(i);
    if Accepts(Resumed(i), m) {
      Provenance.TakenData(Resumed(i), m);
    }
  }

  // ---------------------------------------------------------------- what is accepted

  // A completing signature counts only if recovery succeeds.
  ghost predicate Recovers(env: Env, i: Inst, x: Input) {
    i.state == SigningAwait && Completes(i, x) && i.payload.dkg.Some? ==> Recovery(env, i, x).Some?
  }

  lemma StartExpands(env: Env, i: Inst, x: Input)
    requires Inv(i) && 0 < x.now && x.m.event == SigningStart && x.m.data.SigningStartRequest?
    requires Accepts(Resumed(i), x.m) && Gate(x.skip, i.payload, x.m) && !Cancelled(i.state)
    ensures Accepted(env, Some(i), x) <==> env.tasksExpand(x.m.data.tasks)
  {
    hide Inv, Gate, Valid, Handle, Asked, Started, Step;
    ResumedKeeps(i);
    StepRuns(env, x.skip, i, x.m, x.now);
    HandleSays(Resumed(i), x.m, x.now);
    Provenance.TakenData(Resumed(i), x.m);
    StartIsSaved(env, Resumed(i), x.m, Handle(Resumed(i), x.m, x.now), x.now);
  }

  lemma StartIsSaved(env: Env, i: Inst, m: Message, res: DoResult, now: Time)
    requires res.Moved? && res.state == SigningAwait && m.event == SigningStart && m.data.SigningStartRequest?
    ensures var out := Conclude(env, i, m, res, now);
            if env.tasksExpand(m.data.tasks) then out.err.None? && out.saved == Some(Inst(SigningAwait, res.payload))
            else out.err == Some(BadTasks)
  {
  }

  lemma ReplyIsAccepted(env: Env, i: Inst, x: Input)
    requires Inv(i) && i.state == SigningAwait && 0 < x.now
    ensures Accepted(env, Some(i), x) <==> Answers(i, x) && Recovers(env, i, x)
  {
    hide Inv, Answers, Recovery, Closed, With, GivesUp, Completes, Step;
    BatchStep(env, i, x);
    if Answers(i, x) {
      var pid := NoReturn.Replier(i, x);
      NoReturn.StoredReplies(i, x, pid);
      AwaitedBefore(i, x);
    }
    if !Answers(i, x) {
      CompletesAnswers(i, x);
    }
  }

  lemma CompletesAnswers(i: Inst, x: Input)
    ensures Completes(i, x) ==> Answers(i, x)
  {
    hide Answers, Signed;
  }

  lemma AwaitedBefore(i: Inst, x: Input)
    requires Answers(i, x) && i.state == SigningAwait
    ensures !NoReturn.Replied(i, NoReturn.Replier(i, x))
  {
    hide Answers, NoReturn.Replier;
  }

  lemma CeremonyIsAccepted(env: Env, i: Inst, x: Input)
    requires Inv(i) && 0 < x.now && Progress.InCeremony(i.state) && Accepts(i, x.m) && Gate(x.skip, i.payload, x.m)
    ensures Accepted(env, Some(i), x)
  {
    hide Inv, Step, Gate, Accepts, Progress.Counted;
    ResumedKeeps(i);
    NotOver(i);
    DoneIsNat(i);
    Progress.AcceptedCounted(env, i, x, Progress.Done(i));
  }

  lemma NotOver(i: Inst)
    requires Progress.InCeremony(i.state)
    ensures !Cancelled(i.state) && Resumed(i) == i
  {
  }

  lemma DoneIsNat(i: Inst)
    requires Inv(i) && Progress.InCeremony(i.state)
    ensures 0 <= Progress.Done(i)
  {
    hide Inv, Undecided, Waiting, Size;
    if i.state != GlobalIdle {
      NotOver(i);
      Progress.DoneBounds(i);
    }
  }

  // On every reachable round a message is accepted if and only if it is trusted, carries what the
  // state takes, and, when it completes a batch, lets the signatures be recovered.
  lemma AcceptedExactly(env: Env, i: Inst, x: Input)
    requires Inv(i) && 0 < x.now
    ensures Accepted(env, Some(i), x) <==> Trusted(x, i.payload) && Admits(env, i, x.m) && Recovers(env, i, x)
  {
    hide Inv, Step, Gate, Accepts, Trusted, Admits, Recovers, Recovery, Result;
    AdmitsTakes(env, i, x.m);
    GateIs(x, i.payload);
    StepSays(env, x.skip, i, x.m, x.now);
    StateCases(env, i, x);
    if i.state == SigningAwait {
      ReplyIsAccepted(env, i, x);
      AnswersIs(i, x);
    } else if Gate(x.skip, i.payload, x.m) && Accepts(Resumed(i), x.m) {
      if x.m.event == SigningStart {
        StartData(Resumed(i), x.m);
        StartExpands(env, i, x);
      } else {
        CeremonyIsAccepted(env, i, x);
      }
    }
  }

  lemma AnswersIs(i: Inst, x: Input)
    requires Inv(i) && i.state == SigningAwait
    ensures Answers(i, x) <==> Gate(x.skip, i.payload, x.m) && Accepts(Resumed(i), x.m)
  {
    hide Inv, Gate, Decode, CanSign, SigningReady, SigningOpen, SameRoster, StageOpen;
    Parts(i);
  }

  lemma StateCases(env: Env, i: Inst, x: Input)
    requires Inv(i)
    ensures Admits(env, i, x.m) ==>
              && !Cancelled(i.state)
              && x.m.event != SignatureReconstructed && x.m.event != SignatureReconstructionFailed
    ensures i.state != SigningAwait ==> Recovers(env, i, x)
    ensures Accepts(Resumed(i), x.m) && i.state != SigningAwait ==>
              !Cancelled(i.state) && (x.m.event == SigningStart || (Progress.InCeremony(i.state) && Resumed(i) == i))
  {
    hide Inv, Valid, Completes, Recovery, CanReply, TooLate, CanConfirm, CanFail;
  }

  lemma StartData(i: Inst, m: Message)
    requires Accepts(i, m) && m.event == SigningStart
    ensures m.data.SigningStartRequest?
  {
    hide Valid;
  }

  // ---------------------------------------------------------------- where it leads

  // Another participant confirmed a different master key.
  ghost predicate Clashes(p: Payload, r: Request) {
    && p.dkg.Some? && r.ConfirmationRequest?
    && exists k :: k in p.dkg.value.quorum && k != r.pid && p.dkg.value.quorum[k].status == Confirmed(MasterKeys)
                && Answer(p.dkg.value.quorum[k], MasterKeys) != r.content
  }

  // All others are done.
  ghost predicate OthersAgreed(p: Payload, pid: int) {
    p.sig.Some? && forall k | k in p.sig.value.quorum && k != pid :: p.sig.value.quorum[k].status != SigAwait
  }

  ghost predicate OthersAnswered(p: Payload, stage: Stage, pid: int) {
    p.dkg.Some? && forall k | k in p.dkg.value.quorum && k != pid :: p.dkg.value.quorum[k].status != Awaiting(stage)
  }

  // The state to which an accepted message takes a round.
  ghost function NextState(i: Inst, m: Message): State {
    var p, r := i.payload, m.data;
    match i.state
    case GlobalIdle => if CreatedAt(r) + PROPOSAL_DEADLINE < 0 then ProposalCanceledByTimeout else AwaitParticipants
    case AwaitParticipants =>
      if !(p.sig.Some? && PidOf(r) in p.sig.value.quorum) then i.state
      else if p.sig.value.quorum[PidOf(r)].updatedAt + PROPOSAL_DEADLINE < CreatedAt(r)
              || p.sig.value.expiresAt < CreatedAt(r) then ProposalCanceledByTimeout
      else if m.event == DeclineProposal then ProposalCanceledByParticipant
      else if OthersAgreed(p, PidOf(r)) then DkgAwait(Commits)
      else AwaitParticipants
    case DkgAwait(stage) =>
      if m.event == DkgError(stage) then DkgCanceledByError(stage)
      else if p.dkg.Some? && p.dkg.value.expiresAt < CreatedAt(r) then DkgCanceledByTimeout(stage)
      else if stage == MasterKeys && Clashes(p, r) then DkgCanceledByError(MasterKeys)
      else if !OthersAnswered(p, stage, PidOf(r)) then DkgAwait(stage)
      else if stage == MasterKeys then SigningIdle
      else DkgAwait(NextStage(stage))
    case SigningIdle | SigningCanceledByError => SigningAwait
    case SigningAwait =>
      if p.signing.None? || p.sig.None? then i.state
      else if m.event == PartialSign then
        if Signed(p) + 1 == p.threshold then SigningIdle else SigningAwait
      else if Gaveup(p) == Size(p) - p.threshold then SigningCanceledByError else SigningAwait
    case _ => i.state
  }

  lemma ReplyLeads(p: Payload, m: Message, now: Time)
    requires p.sig.Some? && Inv(Inst(AwaitParticipants, p)) && IsReply(m.event)
    requires CanReply(p, m.data) || TooLate(p, m.data)
    ensures Respond(m.event, p, m.data).Moved?
    ensures Landed(Proposed(Respond(m.event, p, m.data), now)).state == NextState(Inst(AwaitParticipants, p), m)
  {
    hide Inv, Valid, Respond, Opened, Preservation.Invited;
    RespondSays(p, m.event, m.data);
    if CanReply(p, m.data) {
      OthersDecided(p, m.data.pid);
    }
  }

  lemma OthersDecided(p: Payload, pid: int)
    requires p.sig.Some? && pid in Undecided(p)
    ensures OthersAgreed(p, pid) <==> Undecided(p) == {pid}
  {
    if OthersAgreed(p, pid) {
      forall k
        ensures k in Undecided(p) <==> k == pid
      {
      }
    } else {
      var k :| k in p.sig.value.quorum && k != pid && p.sig.value.quorum[k].status == SigAwait;
      assert k in Undecided(p);
    }
  }

  lemma OthersWait(p: Payload, stage: Stage, pid: int)
    requires p.dkg.Some? && pid in Waiting(p.dkg.value.quorum, stage)
    ensures OthersAnswered(p, stage, pid) <==> Waiting(p.dkg.value.quorum, stage) == {pid}
  {
    var q := p.dkg.value.quorum;
    if OthersAnswered(p, stage, pid) {
      forall k
        ensures k in Waiting(q, stage) <==> k == pid
      {
      }
    } else {
      var k :| k in q && k != pid && q[k].status == Awaiting(stage);
      assert k in Waiting(q, stage);
    }
  }

  // With the answer stored, keys clash if and only if another participant's differs from it.
  lemma ClashIs(p: Payload, r: Request)
    requires p.dkg.Some? && StageOpen(p, MasterKeys) && CanConfirm(MasterKeys, p, r)
    ensures D.KeysDiffer(D.Stored(p, r).dkg.value.quorum) <==> Clashes(p, r)
  {
    hide OnTrack, Valid;
    var q, q1 := p.dkg.value.quorum, D.Stored(p, r).dkg.value.quorum;
    assert q1[r.pid].status == Confirmed(MasterKeys) && Answer(q1[r.pid], MasterKeys) == r.content;
    if Clashes(p, r) {
      var k :| k in q && k != r.pid && q[k].status == Confirmed(MasterKeys) && Answer(q[k], MasterKeys) != r.content;
      assert k in q1 && q1[k] == q[k];
    }
    if D.KeysDiffer(q1) {
      var j, k :| j in q1 && k in q1 && q1[j].status == Confirmed(MasterKeys) && q1[k].status == Confirmed(MasterKeys)
                  && Answer(q1[j], MasterKeys) != Answer(q1[k], MasterKeys);
      assert j != r.pid ==> q1[j] == q[j];
      assert k != r.pid ==> q1[k] == q[k];
    }
  }

  lemma AnswerLeads(i: Inst, m: Message, stage: Stage, now: Time)
    requires Inv(i) && i.state == DkgAwait(stage) && i.payload.dkg.Some? && m.event == DkgConfirm(stage)
    requires CanConfirm(stage, i.payload, m.data)
    ensures Landed(Concluded(ConfirmOutcome(stage, i.payload, m.data), now)).state == NextState(i, m)
  {
    hide Inv, Valid, D.Stored, D.KeysDiffer, D.Mismatched, D.Restatused, D.Collected, Waiting, Clashes,
         OthersAnswered, StageOpen, SameRoster, SigningReady, SigningOpen, SigningOpened;
    var p, r := i.payload, m.data;
    Parts(i);
    WaitsHere(p, stage, r);
    OthersWait(p, stage, r.pid);
    if stage == MasterKeys {
      ClashIs(p, r);
    }
  }

  lemma WaitsHere(p: Payload, stage: Stage, r: Request)
    requires p.dkg.Some? && CanConfirm(stage, p, r)
    ensures r.pid in Waiting(p.dkg.value.quorum, stage)
  {
    hide Valid;
  }

  lemma ProposalLeads(p: Payload, m: Message, now: Time)
    requires Inv(Inst(GlobalIdle, p)) && m.data.ProposalRequest? && Valid(m.data)
    ensures Propose(p, m.data).Moved? && Landed(Propose(p, m.data)).state == NextState(Inst(GlobalIdle, p), m)
  {
    hide Valid, InvitationList, Sorted, P.IdMap, P.KeyMap, Settle, Roster;
    TakenProposal(p, m.data, now);
    FreshRoster(p, m.data);
    SettleFresh(P.Init(p, m.data).payload, P.Init(p, m.data).data);
  }

  lemma ResultLeads(i: Inst, m: Message, now: Time)
    requires Inv(i) && Takes(i, m.event, m.data)
    ensures Result(i, m.event, m.data, now).Moved?
    ensures Landed(Result(i, m.event, m.data, now)).state == NextState(i, m)
  {
    hide Inv, CanReply, TooLate, CanConfirm, CanFail, CanSign, Valid, Propose, Respond, ConfirmOutcome, Concluded,
         Proposed, SameRoster, StageOpen, SigningReady, SigningOpen, Clashes, OthersAgreed, OthersAnswered, Started,
         SignStored, Closed, Batch, Signed, Gaveup, Fail;
    Parts(i);
    match i.state
    case GlobalIdle =>
      assert i == Inst(GlobalIdle, i.payload);
      ProposalLeads(i.payload, m, now);
    case AwaitParticipants =>
      assert i == Inst(AwaitParticipants, i.payload);
      ReplyLeads(i.payload, m, now);
    case DkgAwait(stage) =>
      if m.event == DkgConfirm(stage) {
        AnswerLeads(i, m, stage, now);
      } else {
        FailSays(stage, i.payload, m.data);
      }
    case SigningIdle =>
    case SigningAwait =>
  }

  // An accepted message takes a reachable round to the next state, and only there.
  lemma AcceptedLeads(env: Env, i: Inst, x: Input)
    requires Inv(i) && 0 < x.now && Accepted(env, Some(i), x)
    ensures After(env, Some(i), x).Some? && After(env, Some(i), x).value.state == NextState(i, x.m)
  {
    hide Inv, Step, Gate, Accepts, Result, Landed, Decode, NextState;
    StepSays(env, x.skip, i, x.m, x.now);
    var j := Resumed(i);
    AcceptsTakes(j, x.m);
    Provenance.TakenData(j, x.m);
    ResultLeads(j, x.m, x.now);
    ResumedLeads(i, x.m);
  }

  lemma ResumedLeads(i: Inst, m: Message)
    ensures NextState(Resumed(i), m) == NextState(i, m)
  {
    hide Clashes, OthersAgreed, OthersAnswered, Signed, Gaveup;
  }

  // ---------------------------------------------------------------- signatures and reports, over runs

  // Once a proposal was accepted, a message that is not signed with the key which the proposal lists
  // for its sender - or whose sender it does not list - is refused and changes nothing, unless it is a
  // proposal itself.
  lemma UnsignedIsRefused(env: Env, ins: seq<Input>, x: Input)
    requires Clocked(ins) && 0 < x.now && !x.skip && x.m.event != InitProposal && FactsOf(env, None, ins) != []
    requires var first := FactsOf(env, None, ins)[0].data;
             first.ProposalRequest? ==>
               forall k | 0 <= k < |first.participants| ::
                 first.participants[k].username == x.m.sender ==> first.participants[k].pubKey !in x.m.signers
    ensures var saved := RoundRun(env, None, ins);
            && saved.Some?
            && Step(env, false, saved, x.m, x.now)
               == StepOut(saved, None, None, Some(if Buried(saved.value.state) then NotRoutable else Unverified))
  {
    hide RoundRun, FactsOf, Step, Inv;
    RoundRunKeeps(env, None, ins);
    Provenance.RunRecords(env, ins);
    var i, h := RoundRun(env, None, ins).value, FactsOf(env, None, ins);
    KeysAreListed(i, h, x.m);
    Safety.UnsignedRefused(env, i, x.m, x.now);
    BuriedIs(i);
  }

  lemma KeysAreListed(i: Inst, h: seq<Fact>, m: Message)
    requires Records(i, h) && h != [] && h[0].data.ProposalRequest?
    requires forall k | 0 <= k < |h[0].data.participants| ::
               h[0].data.participants[k].username == m.sender ==> h[0].data.participants[k].pubKey !in m.signers
    ensures !Safety.SignedFor(i.payload, m)
  {
    hide Replies, OfDkg, Errors, OfSigning, Range;
    var ps := h[0].data.participants;
    if m.sender in i.payload.pubKeys {
      var k :| 0 <= k < |ps| && ps[k].username == m.sender;
      assert Listed(i.payload, ps[k], k, h[0].data.threshold);
    }
  }

  lemma BuriedIs(i: Inst)
    requires Inv(i)
    ensures Routable(i.state) <==> !Buried(i.state)
  {
    hide Roster, ProposalOpen, SameRoster, StageOpen, SigningReady, SigningOpen, AnyDkgError;
  }

  // A report of an awaited participant cancels the stage, and the participant has its error.
  lemma ReportCancels(env: Env, i: Inst, x: Input, stage: Stage)
    requires Inv(i) && 0 < x.now && i.state == DkgAwait(stage) && x.m.event == DkgError(stage) && Trusted(x, i.payload)
    requires x.m.data.DkgErrorRequest? && Valid(x.m.data) && AwaitsOf(i.payload, stage, x.m.data.pid)
    ensures var n := After(env, Some(i), x);
            && n.Some? && n.value.state == DkgCanceledByError(stage) && n.value.payload.dkg.Some?
            && x.m.data.pid in n.value.payload.dkg.value.quorum
            && n.value.payload.dkg.value.quorum[x.m.data.pid].error == x.m.data.error
            && forall k | k in i.payload.dkg.value.quorum && k != x.m.data.pid ::
                 k in n.value.payload.dkg.value.quorum
                 && n.value.payload.dkg.value.quorum[k] == i.payload.dkg.value.quorum[k]
  {
    hide Inv, Step, Gate, Valid, Fail, Trusted;
    GateIs(x, i.payload);
    StepSays(env, x.skip, i, x.m, x.now);
    SigThere(i);
    Provenance.ReportWrites(stage, i.payload, x.m.data);
  }

  lemma SigThere(i: Inst)
    requires Inv(i) && i.state.DkgAwait?
    ensures i.payload.sig.Some?
  {
    hide StageOpen;
  }
}
