/** The operations a node hands to its airgapped machine. */
module Operations {
  import opened Names
  import opened Payloads
  import opened Ceremony
  import opened NodeStep
  import opened Moves
  import opened RoundInvariant
  import opened Preservation
  import opened Steps
  import opened Runs
  import P = ProposalActions
  import D = DkgActions
  import S = SigningActions

  function Previous(stage: Stage): Stage
    requires stage != Commits
  {
    match stage
    case Deals => Commits
    case Responses => Deals
    case MasterKeys => Responses
  }

  // What participant i has to offer to a stage: its key for commits, then its last answer.
  ghost function Offer(d: DkgParticipant, stage: Stage): Bytes {
    if stage == Commits then d.dkgPubKey else Answer(d, Previous(stage))
  }

  // The participants 0..n-1, in this order, with their names and what they have to offer.
  ghost predicate Offers(entries: seq<Entry>, q: DkgQuorum, n: nat, stage: Stage) {
    |entries| == n && forall i | 0 <= i < n :: i in q && entries[i] == Entry(i, q[i].username, Offer(q[i], stage))
  }

  ghost predicate Invites(entries: seq<Invitation>, q: SigQuorum, n: nat) {
    |entries| == n && forall i | 0 <= i < n ::
      i in q && entries[i] == Invitation(i, q[i].username, q[i].threshold, q[i].dkgPubKey, q[i].pubKey)
  }

  ghost predicate Signers(entries: seq<Entry>, q: SigningQuorum, n: nat) {
    |entries| == n && forall i | 0 <= i < n :: i in q && entries[i] == Entry(i, q[i].username, [])
  }

  // The data of an operation for a state: all that the payload has for every participant.
  ghost predicate Complete(data: Data, s: State, p: Payload) {
    && p.sig.Some?
    && match s
       case AwaitParticipants => data.Invitations? && Invites(data.invitations, p.sig.value.quorum, Size(p))
       case DkgAwait(stage) =>
         && data.StageInput? && data.stage == stage && p.dkg.Some?
         && Offers(data.entries, p.dkg.value.quorum, Size(p), stage)
         && (stage == Commits ==> data.threshold == p.threshold)
       case SigningAwait =>
         && data.SigningInvitations? && p.signing.Some?
         && data.batchId == p.signing.value.batchId && data.initiator == p.signing.value.initiator
         && data.srcPayload == p.signing.value.srcPayload && Signers(data.entries, p.signing.value.quorum, Size(p))
       case _ => false
  }

  lemma RestInside(ids: seq<int>)
    requires ids != []
    ensures ids[0] in Elements(ids) && Elements(ids[1..]) <= Elements(ids)
    ensures forall k | 1 <= k < |ids| :: ids[k] == ids[1..][k - 1]
  {
  }

  lemma {:induction false} InvitationsAt(ids: seq<int>, q: SigQuorum)
    requires Elements(ids) <= q.Keys
    ensures |InvitationList(ids, q)| == |ids|
    ensures forall k | 0 <= k < |ids| :: ids[k] in q &&
              InvitationList(ids, q)[k]
              == Invitation(ids[k], q[ids[k]].username, q[ids[k]].threshold, q[ids[k]].dkgPubKey, q[ids[k]].pubKey)
    decreases |ids|
  {
    if ids != [] {
      RestInside(ids);
      InvitationsAt(ids[1..], q);
    }
  }

  lemma {:induction false} KeysAt(ids: seq<int>, q: DkgQuorum)
    requires Elements(ids) <= q.Keys
    ensures |KeyList(ids, q)| == |ids|
    ensures forall k | 0 <= k < |ids| ::
              ids[k] in q && KeyList(ids, q)[k] == Entry(ids[k], q[ids[k]].username, q[ids[k]].dkgPubKey)
    decreases |ids|
  {
    if ids != [] {
      RestInside(ids);
      KeysAt(ids[1..], q);
    }
  }

  lemma {:induction false} SignersAt(ids: seq<int>, q: SigningQuorum)
    requires Elements(ids) <= q.Keys
    ensures |SignerList(ids, q)| == |ids|
    ensures forall k | 0 <= k < |ids| :: ids[k] in q && SignerList(ids, q)[k] == Entry(ids[k], q[ids[k]].username, [])
    decreases |ids|
  {
    if ids != [] {
      RestInside(ids);
      SignersAt(ids[1..], q);
    }
  }

  // No participant is skipped when all have answered.
  lemma {:induction false} AnswersAt(ids: seq<int>, q: DkgQuorum, stage: Stage)
    requires Elements(ids) <= q.Keys
    requires forall i | i in q :: Answer(q[i], stage) != []
    ensures |AnswerList(ids, q, stage)| == |ids|
    ensures forall k | 0 <= k < |ids| ::
              ids[k] in q
              && AnswerList(ids, q, stage)[k] == Entry(ids[k], q[ids[k]].username, Answer(q[ids[k]], stage))
    decreases |ids|
  {
    hide Answer;
    if ids != [] {
      RestInside(ids);
      AnswersAt(ids[1..], q, stage);
    }
  }

  // Entering a waiting state comes with complete data; staying in it with none.
  ghost predicate AsksAll(before: State, res: DoResult)
    requires res.Moved?
  {
    NeedsOperation(res.state) ==>
      if res.state == before then res.data == NoData
      else res.data != NoData && Complete(res.data, res.state, res.payload)
  }

  lemma ProposeAsks(i: Inst, r: Request)
    requires i.state == GlobalIdle && Inv(i) && Propose(i.payload, r).Moved?
    ensures AsksAll(i.state, Propose(i.payload, r))
  {
    hide Valid, Settle, InvitationList, Sorted, Propose, Inv, P.NewQuorum, Invites;
    var res := Propose(i.payload, r);
    assert i == Inst(GlobalIdle, i.payload);
    ProposeKeeps(i.payload, r);
    ProposeInits(i.payload, r);
    InitAsks(i.payload, r);
    var q := res.payload.sig.value.quorum;
    assert |q| == |q.Keys| == |r.participants|;
  }

  lemma ProposeInits(p: Payload, r: Request)
    ensures Propose(p, r).Moved? ==> P.Init(p, r).Reply?
  {
    hide P.Init, Settle;
  }

  lemma InitAsks(p: Payload, r: Request)
    requires P.Init(p, r).Reply? && r.ProposalRequest?
    ensures P.Init(p, r).data.Invitations?
    ensures Invites(P.Init(p, r).data.invitations, P.NewQuorum(r.participants, r.threshold, r.createdAt),
              |r.participants|)
  {
    hide Valid, InvitationList, Sorted, P.KeyMap, P.IdMap, Invites;
    AskInvitations(P.NewQuorum(r.participants, r.threshold, r.createdAt), |r.participants|);
  }

  lemma AskInvitations(q: SigQuorum, n: nat)
    requires q.Keys == Range(n)
    ensures Invites(InvitationList(Sorted(q.Keys), q), q, n)
  {
    hide Sorted, Range, Elements;
    IdsAre(n);
    InvitationsAt(Iota(n), q);
  }

  lemma AskKeys(q: DkgQuorum, n: nat)
    requires q.Keys == Range(n)
    ensures Offers(KeyList(Sorted(q.Keys), q), q, n, Commits)
  {
    hide Sorted, Range, Elements;
    IdsAre(n);
    KeysAt(Iota(n), q);
  }

  lemma AskAnswers(q: DkgQuorum, n: nat, stage: Stage)
    requires q.Keys == Range(n) && stage != MasterKeys
    requires forall i | i in q :: Answer(q[i], stage) != []
    ensures D.Collected(stage, q).StageInput? && D.Collected(stage, q).stage == NextStage(stage)
    ensures Offers(D.Collected(stage, q).entries, q, n, NextStage(stage))
  {
    hide AnswerList, Sorted, Answer, Range, Elements;
    IdsAre(n);
    AnswersAt(Iota(n), q, stage);
    assert Previous(NextStage(stage)) == stage;
  }

  lemma IdsAre(n: nat)
    ensures Sorted(Range(n)) == Iota(n) && Elements(Iota(n)) == Range(n)
  {
    hide Range, Elements, Sorted;
    SortedRange(n);
  }

  lemma AskSigners(q: SigningQuorum, n: nat)
    requires q.Keys == Range(n)
    ensures Signers(SignerList(Sorted(q.Keys), q), q, n)
  {
    hide Sorted, Range, Elements;
    IdsAre(n);
    SignersAt(Iota(n), q);
  }

  lemma ReplyAsks(i: Inst, e: Event, r: Request, now: Time)
    requires i.state == AwaitParticipants && Inv(i) && i.payload.sig.Some? && IsReply(e)
    requires CanReply(i.payload, r) || TooLate(i.payload, r)
    ensures Respond(e, i.payload, r).Moved? && AsksAll(i.state, Proposed(Respond(e, i.payload, r), now))
  {
    hide Inv, Respond, KeyList, Sorted, CanReply, TooLate, Outcome, Roster, Invited, Complete, Opened;
    RespondSays(i.payload, e, r);
    RespondKeeps(i.payload, e, r);
    var res := Respond(e, i.payload, r);
    if res.state == ProposalCollected {
      InvitesAll(res.payload, now);
    }
  }

  lemma InvitesAll(p: Payload, now: Time)
    requires Roster(p)
    ensures p.sig.Some? && Invited(p) != NoData && Complete(Invited(p), DkgAwait(Commits), Opened(p, now))
  {
    hide KeyList, Sorted, Offers, D.FromProposal, Range;
    AskKeys(D.FromProposal(p.sig.value.quorum), Size(p));
  }

  lemma ConfirmAsks(stage: Stage, p: Payload, r: Request, now: Time)
    requires p.sig.Some? && p.dkg.Some? && SameRoster(p) && StageOpen(p, stage) && CanConfirm(stage, p, r)
    ensures AsksAll(DkgAwait(stage), Concluded(ConfirmOutcome(stage, p, r), now))
  {
    hide SameRoster, StageOpen, OnTrack, Waiting, D.KeysDiffer, D.Mismatched, D.Restatused, D.Collected, Complete,
         Valid, D.Stored, D.WithQuorum;
    if Waiting(p.dkg.value.quorum, stage) == {r.pid} && r.createdAt <= p.dkg.value.expiresAt && stage != MasterKeys {
      StageCollected(stage, p, r);
    }
  }

  // The list is drawn from the answers as they are saved: moving everybody on changes no answer.
  lemma StageCollected(stage: Stage, p: Payload, r: Request)
    requires p.sig.Some? && p.dkg.Some? && SameRoster(p) && StageOpen(p, stage) && CanConfirm(stage, p, r)
    requires Waiting(p.dkg.value.quorum, stage) == {r.pid}
    requires r.createdAt <= p.dkg.value.expiresAt && stage != MasterKeys
    ensures var p1 := D.Stored(p, r);
            var q1 := p1.dkg.value.quorum;
            Complete(D.Collected(stage, q1), DkgAwait(NextStage(stage)),
              D.WithQuorum(p1, D.Restatused(q1, D.Following(stage))))
  {
    hide StageOpen, SameRoster, Waiting, D.Collected, Valid, D.Restatused, Offers, Range, Answer, D.Answered;
    AllAnswered(stage, p, r);
    var c1 := D.Stored(p, r).dkg.value;
    AskAnswers(c1.quorum, Size(p), stage);
    OffersRestatused(D.Collected(stage, c1.quorum).entries, c1.quorum, Size(p), NextStage(stage), D.Following(stage));
  }

  lemma AllAnswered(stage: Stage, p: Payload, r: Request)
    requires p.sig.Some? && p.dkg.Some? && SameRoster(p) && StageOpen(p, stage) && CanConfirm(stage, p, r)
    requires Waiting(p.dkg.value.quorum, stage) == {r.pid} && r.createdAt <= p.dkg.value.expiresAt
    ensures var q1 := D.Stored(p, r).dkg.value.quorum;
            q1.Keys == Range(Size(p)) && forall i | i in q1 :: Answer(q1[i], stage) != []
  {
    hide StageOpen, Waiting, D.KeysDiffer, Valid, Roster, Range;
    LastStored(stage, p, r);
    StoredKeeps(stage, p, r);
    var c1 := D.Stored(p, r).dkg.value;
    forall i | i in c1.quorum
      ensures Answer(c1.quorum[i], stage) != []
    {
      assert OnTrack(c1.quorum[i], stage, c1.expiresAt);
    }
    RosterRange(p);
  }

  lemma OffersRestatused(entries: seq<Entry>, q: DkgQuorum, n: nat, stage: Stage, status: DkgStatus)
    requires Offers(entries, q, n, stage)
    ensures Offers(entries, D.Restatused(q, status), n, stage)
  {
  }

  lemma StartAsks(p: Payload, r: Request)
    requires p.sig.Some? && p.dkg.Some? && p.signing.Some? && SigningReady(p) && r.SigningStartRequest?
    ensures AsksAll(SigningIdle, Moved(SigningAwait, Started(p, r), Asked(p, r)))
  {
    hide SigningReady, SignerList, Sorted, Signers, S.FreshQuorum, Range;
    ReadyRange(p);
    AskSigners(S.FreshQuorum(p.dkg.value.quorum, r.createdAt), Size(p));
  }

  lemma ReadyRange(p: Payload)
    requires p.sig.Some? && p.dkg.Some? && SigningReady(p)
    ensures p.dkg.value.quorum.Keys == Range(Size(p))
  {
    hide Finished;
  }

  lemma ResultAsks(i: Inst, e: Event, r: Request, now: Time)
    requires Inv(i) && Takes(i, e, r) && Result(i, e, r, now).Moved?
    ensures AsksAll(i.state, Result(i, e, r, now))
  {
    hide Inv, SigningReady, StageOpen, SameRoster, Complete, CanReply, TooLate, CanConfirm, CanFail, CanSign, Valid,
         Propose, Respond, ConfirmOutcome, Fail, SignOutcome, Started, Asked, Opened, Invited, SigningOpened;
    Parts(i);
    match i.state
    case GlobalIdle => ProposeAsks(i, r);
    case AwaitParticipants => ReplyAsks(i, e, r, now);
    case DkgAwait(stage) =>
      if e == DkgConfirm(stage) {
        ConfirmAsks(stage, i.payload, r, now);
      }
    case SigningIdle => StartAsks(i.payload, r);
    case SigningAwait => SignAsks(i.payload, e, r);
  }

  lemma SignAsks(p: Payload, e: Event, r: Request)
    requires p.signing.Some? && p.sig.Some? && CanSign(e, p, r)
    ensures AsksAll(SigningAwait, SignOutcome(e, p, r))
  {
    hide Batch, Closed, Complete, Signed, Gaveup;
  }

  // The round has come to a state in which it waits for participants.
  ghost predicate Enters(before: Option<Inst>, after: Option<Inst>) {
    && after.Some?
    && (after.value.state == AwaitParticipants || after.value.state.DkgAwait? || after.value.state == SigningAwait)
    && (before.None? || before.value.state != after.value.state)
  }

  // The operation asks for what the round waits for.
  ghost predicate Fits(op: Operation, round: string, i: Inst) {
    op.round == round && op.state == i.state && Complete(op.data, i.state, i.payload)
  }

  // One message, seen from the airgapped machine: an operation is emitted exactly when the saved
  // round enters a waiting state, it is for that state, and it lists every participant once, in
  // ascending order, with exactly what the saved payload has for it.
  lemma OneOperationPerEntry(env: Env, saved: Option<Inst>, x: Input)
    requires SavedInv(saved) && 0 < x.now
    ensures var out := Step(env, x.skip, saved, x.m, x.now);
            && (out.op.Some? <==> Enters(saved, out.saved))
            && (out.op.Some? ==> Fits(out.op.value, x.m.round, out.saved.value))
  {
    hide Step, Inv, Gate, Accepts, Result, Complete, TrimSpace;
    StepOnBase(env, saved, x);
    var base := Base(saved, x.m);
    var out := Step(env, x.skip, saved, x.m, x.now);
    if base.Some? {
      ResumedKeeps(base.value);
      var j := Resumed(base.value);
      if !Cancelled(base.value.state) && Gate(x.skip, base.value.payload, x.m) && Accepts(j, x.m) {
        AcceptsTakes(j, x.m);
        ResultAsks(j, x.m.event, Decode(x.m).value, x.now);
      }
    }
  }
}
