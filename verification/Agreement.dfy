/** Replica agreement: nodes that read the same log of whole batches agree on everything but the
    bytes of the deals addressed to them and the readings of their own clocks. */
module Agreement {
  import opened Names
  import opened Payloads
  import opened Ceremony
  import opened NodeStep
  import opened Moves
  import opened RoundInvariant
  import opened Reactions
  import opened Preservation
  import opened Steps
  import opened Runs
  import opened Mailbox
  import P = ProposalActions
  import D = DkgActions
  import S = SigningActions

  const A_DEAL: Bytes := [0]

  // ---------------------------------------------------------------- the shared view of a round

  ghost function SharedContent(stage: Stage, content: Bytes): Bytes {
    if stage == Deals && content != [] then A_DEAL else content
  }

  ghost function SharedAnswers(answers: map<Stage, Bytes>): map<Stage, Bytes> {
    map s | s in answers :: SharedContent(s, answers[s])
  }

  ghost function SharedQuorum(q: DkgQuorum): (r: DkgQuorum)
    ensures r.Keys == q.Keys
  {
    map i | i in q :: q[i].(answers := SharedAnswers(q[i].answers))
  }

  // What nodes share of a payload: deals are only known to exist, and the stamps of the node's own
  // clock are replaced by a reference time `lo`.
  ghost function Shared(p: Payload, lo: Time): Payload {
    p.(dkg := if p.dkg.None? then None
              else Some(p.dkg.value.(quorum := SharedQuorum(p.dkg.value.quorum), createdAt := lo,
                                     expiresAt := lo + DKG_DEADLINE)),
       signing := if p.signing.None? then None
                  else Some(p.signing.value.(
                              createdAt := if p.signing.value.batchId == "" then lo else p.signing.value.createdAt,
                              expiresAt := lo + SIGNING_DEADLINE)))
  }

  ghost function SharedInst(i: Inst, lo: Time): Inst {
    Inst(i.state, Shared(i.payload, lo))
  }

  ghost function SharedRequest(r: Request): Request {
    if r.ConfirmationRequest? then r.(content := SharedContent(r.stage, r.content)) else r
  }

  // The same message as far as it does not depend on its recipient.
  ghost function SharedMessage(m: Message): Message {
    m.(id := "", offset := 0, recipient := "", data := SharedRequest(m.data))
  }

  // A DKG that opened at the reference time would not miss its deadline by this request. The
  // reference time is nobody's clock: it is chosen late enough for all requests of a log.
  predicate Covered(r: Request, lo: Time) {
    r.ConfirmationRequest? ==> r.createdAt <= lo + DKG_DEADLINE
  }

  // A confirmation that the round would take comes after the round's own deadline.
  ghost predicate Late(i: Inst, m: Message) {
    && i.state.DkgAwait? && i.payload.dkg.Some? && m.event == DkgConfirm(i.state.stage) && Decode(m).Some?
    && CanConfirm(i.state.stage, i.payload, Decode(m).value)
    && i.payload.dkg.value.expiresAt < Decode(m).value.createdAt
  }

  // ---------------------------------------------------------------- the DKG stages commute with sharing

  lemma SharedUpdate(q: DkgQuorum, pid: int, d: DkgParticipant)
    ensures SharedQuorum(q[pid := d]) == SharedQuorum(q)[pid := d.(answers := SharedAnswers(d.answers))]
  {
  }

  lemma SharedAnswered(d: DkgParticipant, stage: Stage, content: Bytes, at: Time)
    ensures var d1 := D.Answered(d, stage, content, at);
            d1.(answers := SharedAnswers(d1.answers))
            == D.Answered(d.(answers := SharedAnswers(d.answers)), stage, SharedContent(stage, content), at)
  {
    assert SharedAnswers(d.answers[stage := content])
           == SharedAnswers(d.answers)[stage := SharedContent(stage, content)];
  }

  lemma SharedStored(p: Payload, r: Request, lo: Time)
    requires r.ConfirmationRequest? && p.dkg.Some? && r.pid in p.dkg.value.quorum
    ensures D.Stored(Shared(p, lo), SharedRequest(r)) == Shared(D.Stored(p, r), lo)
  {
    hide SharedQuorum, SharedContent, SharedAnswers;
    var d := p.dkg.value.quorum[r.pid];
    SharedUpdate(p.dkg.value.quorum, r.pid, D.Answered(d, r.stage, r.content, r.createdAt));
    SharedAnswered(d, r.stage, r.content, r.createdAt);
    SharedAt(p.dkg.value.quorum, r.pid);
  }

  lemma SharedAt(q: DkgQuorum, i: int)
    requires i in q
    ensures SharedQuorum(q)[i] == q[i].(answers := SharedAnswers(q[i].answers))
    ensures Answer(SharedQuorum(q)[i], MasterKeys) == Answer(q[i], MasterKeys)
  {
  }

  lemma SharedVerdicts(q: DkgQuorum, stage: Stage)
    ensures Waiting(SharedQuorum(q), stage) == Waiting(q, stage)
    ensures D.KeysDiffer(SharedQuorum(q)) <==> D.KeysDiffer(q)
    ensures Statused(q, stage) ==> Statused(SharedQuorum(q), stage)
  {
    var sq := SharedQuorum(q);
    forall i | i in q
      ensures sq[i].status == q[i].status && Answer(sq[i], MasterKeys) == Answer(q[i], MasterKeys)
    {
      SharedAt(q, i);
    }
    hide SharedQuorum, Answer;
  }

  lemma SharedRestatused(q: DkgQuorum, status: DkgStatus)
    ensures SharedQuorum(D.Restatused(q, status)) == D.Restatused(SharedQuorum(q), status)
    ensures SharedQuorum(D.Mismatched(q)) == D.Mismatched(SharedQuorum(q))
  {
  }

  // The canonical outcome: same state, shared payload, data in both or in none, and the same
  // collected signatures.
  ghost predicate Mirrors(x: DoResult, y: DoResult, lo: Time) {
    match x
    case Rejected(_) => y.Rejected?
    case Moved(s, p, data) =>
      && y.Moved? && y.state == s && y.payload == Shared(p, lo)
      && (data == NoData <==> y.data == NoData)
      && (data.CollectedSigns? || y.data.CollectedSigns? ==> y.data == data)
  }

  lemma CanConfirmShared(stage: Stage, p: Payload, r: Request, lo: Time)
    requires p.dkg.Some?
    ensures CanConfirm(stage, Shared(p, lo), SharedRequest(r)) <==> CanConfirm(stage, p, r)
  {
    if r.ConfirmationRequest? && r.pid in p.dkg.value.quorum {
      SharedAt(p.dkg.value.quorum, r.pid);
    }
    hide SharedQuorum;
  }

  lemma OutcomeMirrors(stage: Stage, p: Payload, r: Request, lo: Time)
    requires p.dkg.Some? && CanConfirm(stage, p, r) && r.createdAt <= p.dkg.value.expiresAt && Covered(r, lo)
    requires CanConfirm(stage, Shared(p, lo), SharedRequest(r))
    ensures Mirrors(ConfirmOutcome(stage, p, r), ConfirmOutcome(stage, Shared(p, lo), SharedRequest(r)), lo)
  {
    hide SharedQuorum, SharedContent, D.Stored, D.Restatused, D.Mismatched, D.KeysDiffer, D.Collected, D.WithQuorum,
         Waiting, Valid, Answer;
    SharedStored(p, r, lo);
    StoredParts(p, r);
    var p1 := D.Stored(p, r);
    var q1 := p1.dkg.value.quorum;
    SharedVerdicts(p.dkg.value.quorum, stage);
    SharedVerdicts(q1, stage);
    SharedRestatused(q1, D.Following(stage));
    SharedWithQuorum(p1, D.Restatused(q1, D.Following(stage)), lo);
    SharedWithQuorum(p1, D.Mismatched(q1), lo);
  }

  lemma StoredParts(p: Payload, r: Request)
    requires r.ConfirmationRequest? && p.dkg.Some? && r.pid in p.dkg.value.quorum
    ensures D.Stored(p, r).dkg.Some?
  {
  }

  lemma SharedWithQuorum(p: Payload, q: DkgQuorum, lo: Time)
    requires p.dkg.Some?
    ensures Shared(D.WithQuorum(p, q), lo) == D.WithQuorum(Shared(p, lo), SharedQuorum(q))
  {
    hide SharedQuorum;
  }

  lemma ConfirmMirrors(stage: Stage, p: Payload, r: Request, now: Time, lo: Time)
    requires p.sig.Some? && p.dkg.Some? && SameRoster(p) && StageOpen(p, stage) && p.signing.None?
    requires CanConfirm(stage, p, r) ==> r.createdAt <= p.dkg.value.expiresAt
    requires Covered(r, lo) && 0 < lo && 0 < now
    ensures Mirrors(ThenOpenSigning(Confirm(stage, p, r), now),
                    ThenOpenSigning(Confirm(stage, Shared(p, lo), SharedRequest(r)), lo), lo)
  {
    hide SameRoster, StageOpen, Confirm, ConfirmOutcome, OpenSigning, SharedQuorum, CanConfirm, Statused;
    OpenIsStatused(p, stage);
    SharedVerdicts(p.dkg.value.quorum, stage);
    CanConfirmShared(stage, p, r, lo);
    ConfirmSays(stage, p, r);
    ConfirmSays(stage, Shared(p, lo), SharedRequest(r));
    if CanConfirm(stage, p, r) {
      OutcomeMirrors(stage, p, r, lo);
      OpenSigningMirrors(ConfirmOutcome(stage, p, r).payload, now, lo);
    }
  }

  lemma OpenSigningMirrors(p: Payload, now: Time, lo: Time)
    requires 0 < lo && 0 < now
    ensures Mirrors(OpenSigning(p, DefaultRequest(now)), OpenSigning(Shared(p, lo), DefaultRequest(lo)), lo)
  {
    hide SharedQuorum;
  }

  // ---------------------------------------------------------------- the other moves

  lemma NothingToShare(p: Payload, lo: Time)
    requires p.dkg.None? && p.signing.None?
    ensures Shared(p, lo) == p
  {
  }

  lemma OpenMirrors(p: Payload, now: Time, lo: Time)
    requires p.sig.Some? && Roster(p) && p.dkg.None? && p.signing.None? && 0 < lo && 0 < now
    ensures Mirrors(Open(p, DefaultRequest(now)), Open(p, DefaultRequest(lo)), lo)
  {
    hide Roster, Open, Invited;
    OpenSays(p, now);
    OpenSays(p, lo);
    SharedFresh(p.sig.value.quorum);
  }

  lemma SharedFresh(sq: SigQuorum)
    ensures SharedQuorum(D.FromProposal(sq)) == D.FromProposal(sq)
  {
    var none: map<Stage, Bytes> := map[];
    assert SharedAnswers(none) == none;
  }

  lemma ProposalMirrors(res: DoResult, now: Time, lo: Time)
    requires 0 < lo && 0 < now
    requires res.Moved? ==> res.payload.dkg.None? && res.payload.signing.None? && !res.data.CollectedSigns?
    requires res.Moved? && res.state == ProposalCollected ==> Roster(res.payload)
    ensures Mirrors(ThenOpen(res, now), ThenOpen(res, lo), lo)
  {
    hide Roster, Open;
    if res.Moved? {
      NothingToShare(res.payload, lo);
      if res.state == ProposalCollected {
        RosterHasSig(res.payload);
        OpenMirrors(res.payload, now, lo);
      }
    }
  }

  lemma FailMirrors(stage: Stage, p: Payload, r: Request, lo: Time)
    requires p.dkg.Some?
    ensures Mirrors(Fail(stage, p, r), Fail(stage, Shared(p, lo), r), lo)
  {
    hide SharedQuorum, SharedAnswers, Answer, Valid, D.WithParticipant;
    if r.DkgErrorRequest? && r.pid in p.dkg.value.quorum {
      SharedAt(p.dkg.value.quorum, r.pid);
      var d := p.dkg.value.quorum[r.pid];
      SharedWith(p, r.pid, d.(status := Errored(stage), error := r.error, updatedAt := r.createdAt), r.createdAt, lo);
    }
  }

  lemma SharedWith(p: Payload, pid: int, d: DkgParticipant, at: Time, lo: Time)
    requires p.dkg.Some?
    ensures Shared(D.WithParticipant(p, pid, d, at), lo)
            == D.WithParticipant(Shared(p, lo), pid, d.(answers := SharedAnswers(d.answers)), at)
    ensures D.WithParticipant(p, pid, d, at).dkg.Some?
  {
    hide SharedQuorum, SharedAnswers;
    SharedUpdate(p.dkg.value.quorum, pid, d);
  }

  lemma SettleSigningMirrors(p: Payload, data: Data, data': Data, lo: Time)
    requires p.signing.Some? && p.signing.value.updatedAt == 0 && !SigningExpired(p.signing.value) && 0 < lo
    requires !data.CollectedSigns? && !data'.CollectedSigns? && (data == NoData <==> data' == NoData)
    ensures Mirrors(SettleSigning(p, data), SettleSigning(Shared(p, lo), data'), lo)
  {
    hide SharedQuorum, SettleSigning, Signed, Gaveup, SignsList, Sorted, S.Processing;
    SettleSigningSays(p, data);
    SettleSigningSays(Shared(p, lo), data');
    CountsShared(p, lo);
  }

  lemma CountsShared(p: Payload, lo: Time)
    requires p.signing.Some?
    ensures Shared(p, lo).signing.Some? && Shared(p, lo).signing.value.quorum == p.signing.value.quorum
    ensures Signed(Shared(p, lo)) == Signed(p) && Gaveup(Shared(p, lo)) == Gaveup(p)
  {
    hide SharedQuorum;
  }

  lemma StartMirrors(p: Payload, r: Request, lo: Time)
    requires p.sig.Some? && p.dkg.Some? && p.signing.Some? && SigningReady(p) && 0 < lo
    ensures Mirrors(Start(p, r), Start(Shared(p, lo), r), lo)
  {
    hide SigningReady, Start, SettleSigning, SharedQuorum, Asked, S.FreshQuorum, Valid;
    StartSays(p, r);
    StartSays(Shared(p, lo), r);
    if CanStart(r) {
      StartedShared(p, r, lo);
      ReadyParts(p);
      AskedData(p, r);
      AskedData(Shared(p, lo), r);
      SettleSigningMirrors(Started(p, r), Asked(p, r), Asked(Shared(p, lo), r), lo);
    }
  }

  lemma AskedData(p: Payload, r: Request)
    requires p.dkg.Some? && r.SigningStartRequest?
    ensures Asked(p, r).SigningInvitations?
  {
  }

  lemma ReadyParts(p: Payload)
    requires SigningReady(p)
    ensures p.signing.Some? && p.signing.value.updatedAt == 0 && !SigningExpired(p.signing.value)
  {
  }

  lemma StartedShared(p: Payload, r: Request, lo: Time)
    requires p.dkg.Some? && p.signing.Some? && CanStart(r)
    ensures Started(Shared(p, lo), r) == Shared(Started(p, r), lo)
  {
    var q := p.dkg.value.quorum;
    assert S.FreshQuorum(SharedQuorum(q), r.createdAt) == S.FreshQuorum(q, r.createdAt);
    hide SharedQuorum, S.FreshQuorum;
  }

  lemma SignMirrors(p: Payload, e: Event, r: Request, lo: Time)
    requires p.sig.Some? && p.signing.Some? && SigningReady(p) && SigningOpen(p) && 0 < lo && IsSign(e)
    ensures Mirrors(Sign(e, p, r), Sign(e, Shared(p, lo), r), lo)
  {
    hide SigningReady, SigningOpen, Sign, SettleSigning, SharedQuorum, Valid, S.AddSigns;
    SignActs(e, p, r);
    SignActs(e, Shared(p, lo), r);
    if CanSign(e, p, r) {
      SignStoredKeeps(e, p, r);
      ReadyParts(SignStored(e, p, r));
      assert SignStored(e, Shared(p, lo), r) == Shared(SignStored(e, p, r), lo);
      SettleSigningMirrors(SignStored(e, p, r), NoData, NoData, lo);
    }
  }

  // ---------------------------------------------------------------- one message

  lemma DecodeShared(m: Message)
    ensures Decode(SharedMessage(m)) == if Decode(m).None? then None else Some(SharedRequest(Decode(m).value))
  {
  }

  lemma ProposalFacts(i: Inst, m: Message, r: Request)
    requires Inv(i) && (i.state == GlobalIdle || (i.state == AwaitParticipants && IsReply(m.event)))
    ensures i.payload.dkg.None? && i.payload.signing.None?
    ensures var res := if i.state == GlobalIdle then Propose(i.payload, r) else Respond(m.event, i.payload, r);
            && (res.Moved? ==> res.payload.dkg.None? && res.payload.signing.None? && !res.data.CollectedSigns?)
            && (res.Moved? && res.state == ProposalCollected ==> Roster(res.payload))
  {
    hide Roster, ProposalOpen, Propose, Respond, InvitationList, Sorted, Valid;
    if i.state == GlobalIdle {
      ProposeData(i.payload, r);
      ProposeKeeps(i.payload, r);
    } else {
      Parts(i);
      RespondKeeps(i.payload, m.event, r);
      RespondSays(i.payload, m.event, r);
    }
  }

  lemma ProposeData(p: Payload, r: Request)
    ensures P.Init(p, r).Reply? ==> P.Init(p, r).data.Invitations?
    ensures Propose(p, r).Moved? ==> P.Init(p, r).Reply?
  {
    hide P.Init, Settle;
  }

  lemma HandleMirrors(i: Inst, m: Message, now: Time, lo: Time)
    requires Inv(i) && Live(i.state) && !Late(i, m) && Covered(m.data, lo) && 0 < lo && 0 < now
    ensures Mirrors(Handle(i, m, now), Handle(SharedInst(i, lo), SharedMessage(m), lo), lo)
  {
    hide Inv, Decode, Shared, SharedRequest, Propose, Respond, Confirm, Fail, Start, Sign, ThenOpen,
         ThenOpenSigning, Mirrors, SigningReady, SigningOpen, StageOpen, SameRoster;
    DecodeShared(m);
    if Decode(m).Some? {
      var p, r := i.payload, Decode(m).value;
      Parts(i);
      DecodedParts(m, lo);
      match i.state
      case GlobalIdle =>
        ProposalFacts(i, m, r);
        NothingToShare(p, lo);
        ProposalMirrors(Propose(p, r), now, lo);
        RefusedMirrors(lo);
      case AwaitParticipants =>
        RefusedMirrors(lo);
        if IsReply(m.event) {
          ProposalFacts(i, m, r);
          NothingToShare(p, lo);
          ProposalMirrors(Respond(m.event, p, r), now, lo);
        }
      case DkgAwait(stage) =>
        if m.event == DkgConfirm(stage) {
          ConfirmMirrors(stage, p, r, now, lo);
        }
        FailMirrors(stage, p, r, lo);
        RefusedMirrors(lo);
      case SigningIdle =>
        StartMirrors(p, r, lo);
        RefusedMirrors(lo);
      case SigningAwait =>
        RefusedMirrors(lo);
        if IsSign(m.event) {
          SignMirrors(p, m.event, r, lo);
        }
    } else {
      RefusedMirrors(lo);
    }
  }

  lemma RefusedMirrors(lo: Time)
    ensures forall e, e' :: Mirrors(Rejected(e), Rejected(e'), lo)
  {
  }

  lemma DecodedParts(m: Message, lo: Time)
    requires Decode(m).Some? && Covered(m.data, lo)
    ensures Covered(Decode(m).value, lo)
    ensures !m.event.DkgConfirm? ==> SharedRequest(Decode(m).value) == Decode(m).value
  {
  }

  ghost function SharedSaved(saved: Option<Inst>, lo: Time): Option<Inst> {
    if saved.None? then None else Some(SharedInst(saved.value, lo))
  }

  lemma ConcludeMirrors(env: Env, i: Inst, m: Message, x: DoResult, y: DoResult, now: Time, lo: Time)
    requires Mirrors(x, y, lo)
    ensures Conclude(env, SharedInst(i, lo), SharedMessage(m), y, lo).saved
            == SharedSaved(Conclude(env, i, m, x, now).saved, lo)
    ensures Conclude(env, SharedInst(i, lo), SharedMessage(m), y, lo).op.Some? <==> Conclude(env, i, m, x, now).op.Some?
  {
    hide Do, SharedQuorum;
    if x.Moved? && x.state == SigningCollected {
      DoRestart(SigningCollected, x.payload, DefaultRequest(now));
      DoRestart(SigningCollected, Shared(x.payload, lo), DefaultRequest(lo));
    }
  }

  lemma ErrorsShared(p: Payload, lo: Time)
    ensures AnyDkgError(Shared(p, lo)) <==> AnyDkgError(p)
  {
    if p.dkg.Some? {
      var q := p.dkg.value.quorum;
      forall i | i in q
        ensures SharedQuorum(q)[i].error == q[i].error
      {
        SharedAt(q, i);
      }
    }
    hide SharedQuorum;
  }

  lemma StepMirrors(env: Env, skip: bool, i: Inst, m: Message, now: Time, lo: Time)
    requires Inv(i) && (Gate(skip, i.payload, m) ==> !Late(i, m)) && Covered(m.data, lo) && 0 < lo && 0 < now
    ensures var out, out' := Step(env, skip, Some(i), m, now),
                             Step(env, skip, Some(SharedInst(i, lo)), SharedMessage(m), lo);
            out'.saved == SharedSaved(out.saved, lo) && (out'.op.Some? <==> out.op.Some?)
  {
    hide Step, Inv, Handle, Conclude, SharedQuorum, AnyDkgError, Mirrors, SharedRequest;
    ResumedKeeps(i);
    ErrorsShared(i.payload, lo);
    if Cancelled(i.state) {
      StepCancelled(env, skip, i, m, now);
      StepCancelled(env, skip, SharedInst(i, lo), SharedMessage(m), lo);
    } else {
      StepRuns(env, skip, i, m, now);
      StepRuns(env, skip, SharedInst(i, lo), SharedMessage(m), lo);
      var j := Resumed(i);
      assert Resumed(SharedInst(i, lo)) == SharedInst(j, lo);
      if Gate(skip, i.payload, m) {
        HandleMirrors(j, m, now, lo);
        ConcludeMirrors(env, j, m, Handle(j, m, now), Handle(SharedInst(j, lo), SharedMessage(m), lo), now, lo);
      }
    }
  }

  // ---------------------------------------------------------------- stores

  ghost function SharedStore(store: Store, lo: Time): Store {
    map k | k in store :: SharedInst(store[k], lo)
  }

  // The message passes the signature check and is too late for the round it names.
  ghost predicate TooLateFor(saved: Option<Inst>, x: Input) {
    saved.Some? && Gate(x.skip, saved.value.payload, x.m) && Late(saved.value, x.m)
  }

  lemma AfterMirrors(env: Env, saved: Option<Inst>, x: Input, lo: Time)
    requires SavedInv(saved) && !TooLateFor(saved, x) && Covered(x.m.data, lo) && 0 < lo && 0 < x.now
    ensures After(env, SharedSaved(saved, lo), Input(SharedMessage(x.m), lo, x.skip))
            == SharedSaved(After(env, saved, x), lo)
    ensures SavedInv(After(env, saved, x))
  {
    hide Step, Inv, Shared, SharedRequest, TrimSpace, StepEffect, Gate, Covered;
    StepOnBase(env, saved, x);
    var idle := Inst(GlobalIdle, EmptyPayload(TrimSpace(x.m.round)));
    if saved.None? {
      StepCreates(env, x.skip, x.m, x.now);
      StepCreates(env, x.skip, SharedMessage(x.m), lo);
      NothingToShare(idle.payload, lo);
    }
    var base := Base(saved, x.m);
    if base.Some? {
      StepMirrors(env, x.skip, base.value, x.m, x.now, lo);
    }
  }

  lemma UpdateMirrors(env: Env, store: Store, x: Input, lo: Time)
    requires StoreOk(store) && !TooLateFor(Lookup(store, x.m.round), x) && Covered(x.m.data, lo) && 0 < lo && 0 < x.now
    ensures Update(env, SharedStore(store, lo), Input(SharedMessage(x.m), lo, x.skip))
            == SharedStore(Update(env, store, x), lo)
    ensures StoreOk(Update(env, store, x))
  {
    hide After, Inv, Shared, SharedRequest, TooLateFor, Covered;
    AfterMirrors(env, Lookup(store, x.m.round), x, lo);
    assert Lookup(SharedStore(store, lo), x.m.round) == SharedSaved(Lookup(store, x.m.round), lo);
  }

  // ---------------------------------------------------------------- logs of whole batches

  // A batch is whole for a group of nodes when each of them is addressed by exactly one of its
  // messages, and those are the same message up to deal bytes: a broadcast, or the deals of one
  // sender together with its confirmation to itself.
  ghost predicate Whole(b: seq<Message>, nodes: set<string>) {
    && (forall u | u in nodes :: |Mine(b, u)| == 1)
    && (forall u, v | u in nodes && v in nodes :: SharedMessage(Mine(b, u)[0]) == SharedMessage(Mine(b, v)[0]))
  }

  lemma BroadcastIsWhole(m: Message, nodes: set<string>)
    requires m.recipient == ""
    ensures Whole([m], nodes)
  {
  }

  // Deals to every node of the group, one each, from one sender and signed alike.
  lemma DealsAreWhole(deals: seq<Message>, nodes: set<string>)
    requires forall k | 0 <= k < |deals| :: deals[k].recipient in nodes && deals[k].recipient != ""
    requires forall j, k | 0 <= j < k < |deals| :: deals[j].recipient != deals[k].recipient
    requires forall u | u in nodes :: exists k :: 0 <= k < |deals| && deals[k].recipient == u
    requires forall j, k | 0 <= j < |deals| && 0 <= k < |deals| :: SharedMessage(deals[j]) == SharedMessage(deals[k])
    ensures Whole(deals, nodes)
  {
    forall u | u in nodes
      ensures |Mine(deals, u)| == 1 && Mine(deals, u)[0] in deals
    {
      var k :| 0 <= k < |deals| && deals[k].recipient == u;
      OnlyOne(deals, u, k);
    }
  }

  ghost predicate WholeLog(log: seq<seq<Message>>, nodes: set<string>) {
    forall k | 0 <= k < |log| :: Whole(log[k], nodes)
  }

  // A node's messages with the readings of its clock.
  ghost function Inputs(ms: seq<Message>, clock: seq<Time>): (ins: seq<Input>)
    requires |clock| == |ms|
    ensures |ins| == |ms| && forall k | 0 <= k < |ms| :: ins[k] == Input(ms[k], clock[k], false)
  {
    seq(|ms|, k requires 0 <= k < |ms| => Input(ms[k], clock[k], false))
  }

  // The node's clock runs, and no message it reads is too late for the round it names by that
  // node's own deadline.
  ghost predicate Punctual(env: Env, store: Store, ins: seq<Input>)
    decreases |ins|
  {
    ins == [] ||
    (0 < ins[0].now && !TooLateFor(Lookup(store, ins[0].m.round), ins[0])
      && Punctual(env, Update(env, store, ins[0]), ins[1..]))
  }

  // A reference time late enough for every confirmation among some messages.
  lemma {:induction false} ReferenceTime(ins: seq<Input>) returns (lo: Time)
    ensures 0 < lo && forall k | 0 <= k < |ins| :: Covered(ins[k].m.data, lo)
    decreases |ins|
  {
    if ins == [] {
      lo := 1;
    } else {
      lo := ReferenceTime(ins[1..]);
      var r := ins[0].m.data;
      if r.ConfirmationRequest? && lo + DKG_DEADLINE < r.createdAt {
        lo := r.createdAt;
      }
      assert forall k | 1 <= k < |ins| :: ins[k] == ins[1..][k - 1];
    }
  }

  ghost predicate Twin(x: Input, y: Input) {
    SharedMessage(x.m) == SharedMessage(y.m) && x.skip == y.skip
  }

  lemma TwinCovered(x: Input, y: Input, lo: Time)
    requires Twin(x, y) && Covered(x.m.data, lo)
    ensures Covered(y.m.data, lo)
  {
    hide SharedContent;
  }

  lemma {:induction false} RunsMirror(env: Env, su: Store, sv: Store, xs: seq<Input>, ys: seq<Input>, lo: Time)
    requires |xs| == |ys| && 0 < lo && forall k | 0 <= k < |xs| :: Twin(xs[k], ys[k]) && Covered(xs[k].m.data, lo)
    requires StoreOk(su) && StoreOk(sv) && SharedStore(su, lo) == SharedStore(sv, lo)
    requires Punctual(env, su, xs) && Punctual(env, sv, ys)
    ensures SharedStore(Run(env, su, xs), lo) == SharedStore(Run(env, sv, ys), lo)
    decreases |xs|
  {
    hide Update, StoreOk, SharedStore, SharedMessage, TooLateFor, Covered;
    if xs != [] {
      assert Twin(xs[0], ys[0]);
      TwinCovered(xs[0], ys[0], lo);
      UpdateMirrors(env, su, xs[0], lo);
      UpdateMirrors(env, sv, ys[0], lo);
      assert forall k | 0 <= k < |xs[1..]| :: xs[1..][k] == xs[k + 1] && ys[1..][k] == ys[k + 1];
      RunsMirror(env, Update(env, su, xs[0]), Update(env, sv, ys[0]), xs[1..], ys[1..], lo);
    }
  }

  // Two dumps of a round agree on all but deal bytes and the stamps of the nodes' own clocks.
  ghost predicate Agree(a: Inst, b: Inst) {
    && a.state == b.state
    && a.payload == b.payload.(dkg := a.payload.dkg, signing := a.payload.signing)
    && (a.payload.dkg.Some? <==> b.payload.dkg.Some?)
    && (a.payload.signing.Some? <==> b.payload.signing.Some?)
    && (a.payload.dkg.Some? ==>
          var c, d := a.payload.dkg.value, b.payload.dkg.value;
          c == d.(quorum := c.quorum, createdAt := c.createdAt, expiresAt := c.expiresAt)
          && AgreeDkg(c.quorum, d.quorum))
    && (a.payload.signing.Some? ==>
          var c, d := a.payload.signing.value, b.payload.signing.value;
          c == d.(createdAt := c.createdAt, expiresAt := c.expiresAt)
          && (c.batchId != "" ==> c.createdAt == d.createdAt))
  }

  ghost predicate AgreeDkg(q: DkgQuorum, r: DkgQuorum) {
    && q.Keys == r.Keys
    && forall i | i in q ::
         && q[i] == r[i].(answers := q[i].answers)
         && (forall s: Stage | s != Deals :: Answer(q[i], s) == Answer(r[i], s))
         && (Answer(q[i], Deals) == [] <==> Answer(r[i], Deals) == [])
  }

  lemma SharedAgree(a: Inst, b: Inst, lo: Time)
    requires SharedInst(a, lo) == SharedInst(b, lo)
    ensures Agree(a, b)
  {
    hide SharedQuorum, AgreeDkg;
    if a.payload.dkg.Some? {
      SharedAgreeDkg(a.payload.dkg.value.quorum, b.payload.dkg.value.quorum);
    }
  }

  lemma SharedAgreeDkg(q: DkgQuorum, r: DkgQuorum)
    requires SharedQuorum(q) == SharedQuorum(r)
    ensures AgreeDkg(q, r)
  {
    forall i | i in q
      ensures i in r && q[i] == r[i].(answers := q[i].answers)
      ensures SharedAnswers(q[i].answers) == SharedAnswers(r[i].answers)
    {
      assert i in SharedQuorum(q) && i in SharedQuorum(r);
      SharedAt(q, i);
      SharedAt(r, i);
    }
    hide SharedQuorum;
    forall i, s: Stage | i in q
      ensures SharedContent(s, Answer(q[i], s)) == SharedContent(s, Answer(r[i], s))
    {
      var a, b := q[i].answers, r[i].answers;
      assert s in SharedAnswers(a) <==> s in SharedAnswers(b);
    }
  }

  lemma SharedStoresAgree(a: Store, b: Store, lo: Time)
    requires SharedStore(a, lo) == SharedStore(b, lo)
    ensures a.Keys == b.Keys && forall round | round in a :: Agree(a[round], b[round])
  {
    hide Agree, SharedInst;
    assert SharedStore(a, lo).Keys == a.Keys && SharedStore(b, lo).Keys == b.Keys;
    forall round | round in a
      ensures Agree(a[round], b[round])
    {
      assert SharedStore(a, lo)[round] == SharedStore(b, lo)[round];
      SharedAgree(a[round], b[round], lo);
    }
  }

  // Any two nodes that start empty and step through the same log of whole batches agree, after every
  // batch, on every round: stage, statuses, commits, responses, master keys and partial
  // signatures. All that is asked of time is that no confirmation a node would take misses that
  // node's own deadline.
  lemma ReplicaAgreement(env: Env, u: string, v: string, nodes: set<string>, log: seq<seq<Message>>,
                         cu: seq<Time>, cv: seq<Time>)
    requires u in nodes && v in nodes && WholeLog(log, nodes)
    requires |cu| == |Mine(Concat(log), u)| && |cv| == |Mine(Concat(log), v)|
    requires Punctual(env, map[], Inputs(Mine(Concat(log), u), cu))
    requires Punctual(env, map[], Inputs(Mine(Concat(log), v), cv))
    ensures var a := Run(env, map[], Inputs(Mine(Concat(log), u), cu));
            var b := Run(env, map[], Inputs(Mine(Concat(log), v), cv));
            a.Keys == b.Keys && forall round | round in a :: Agree(a[round], b[round])
  {
    hide Update, SharedMessage, Agree, SharedInst, Inv, TooLateFor, Covered, Punctual;
    OnePerBatch(log, u);
    OnePerBatch(log, v);
    var xs, ys := Inputs(Mine(Concat(log), u), cu), Inputs(Mine(Concat(log), v), cv);
    var lo := ReferenceTime(xs);
    forall k | 0 <= k < |xs|
      ensures Twin(xs[k], ys[k])
    {
      assert Whole(log[k], nodes);
    }
    RunsMirror(env, map[], map[], xs, ys, lo);
    SharedStoresAgree(Run(env, map[], xs), Run(env, map[], ys), lo);
  }
}
