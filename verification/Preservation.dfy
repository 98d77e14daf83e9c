/** Every move of the machines keeps the round invariant. */
module Preservation {
  import opened Collections
  import opened Names
  import opened Payloads
  import opened Ceremony
  import opened NodeStep
  import opened Moves
  import opened RoundInvariant
  import P = ProposalActions
  import D = DkgActions
  import S = SigningActions

  // ---------------------------------------------------------------- proposal

  lemma {:induction false} IdMapFinds(ids: map<string, int>, ps: seq<ParticipantEntry>, n: nat, i: nat)
    requires i < n <= |ps| && UniqueUsernames(ps)
    ensures ps[i].username in P.IdMap(ids, ps, n)
    ensures P.IdMap(ids, ps, n)[ps[i].username] == i
  {
    if i < n - 1 {
      IdMapFinds(ids, ps, n - 1, i);
      assert ps[i].username != ps[n - 1].username;
    }
  }

  // A fresh proposal numbers its participants by position and finds them by username.
  lemma FreshRoster(p: Payload, r: Request)
    requires r.ProposalRequest? && Valid(r)
    ensures P.Init(p, r).Reply? && Roster(P.Init(p, r).payload)
  {
    hide InvitationList, Sorted, P.KeyMap, ValidEntry;
    var ps := r.participants;
    var q := P.NewQuorum(ps, r.threshold, r.createdAt);
    var ids := P.IdMap(p.ids, ps, |ps|);
    forall i | i in q
      ensures q[i].username in ids && ids[q[i].username] == i
    {
      IdMapFinds(p.ids, ps, |ps|, i);
    }
    hide P.IdMap;
    assert |q| == |q.Keys| == |ps|;
  }

  lemma SettleFresh(p: Payload, data: Data)
    requires Roster(p) && p.dkg.None? && p.signing.None?
    requires forall i | i in p.sig.value.quorum :: p.sig.value.quorum[i].status == SigAwait
    ensures Settle(p, data)
            == Moved(if SigExpired(p.sig.value) then ProposalCanceledByTimeout else AwaitParticipants, p, data)
    ensures Inv(Inst(Settle(p, data).state, p))
  {
    assert 0 in p.sig.value.quorum;
  }

  lemma ProposeKeeps(p: Payload, r: Request)
    requires Inv(Inst(GlobalIdle, p))
    ensures match Propose(p, r)
            case Rejected(err) => !Fatal(err)
            case Moved(s, p1, data) =>
              && (s == AwaitParticipants || s == ProposalCanceledByTimeout) && Inv(Inst(s, p1))
              && r.ProposalRequest? && p1.sig.Some?
              && p1.sig.value.quorum == P.NewQuorum(r.participants, r.threshold, r.createdAt)
              && data == P.Init(p, r).data
  {
    var res := P.Init(p, r);
    if r.ProposalRequest? && Valid(r) {
      FreshRoster(p, r);
      SettleFresh(res.payload, res.data);
    }
    hide Settle, Roster, InvitationList, Sorted;
  }

  lemma ReplyRoster(p: Payload, pid: int, status: SigStatus, at: Time)
    requires Roster(p) && pid in p.sig.value.quorum
    ensures Roster(P.WithReply(p, pid, status, at))
    ensures P.WithReply(p, pid, status, at).sig.value.quorum.Keys == p.sig.value.quorum.Keys
  {
    var q, q1 := p.sig.value.quorum, P.WithReply(p, pid, status, at).sig.value.quorum;
    assert q1.Keys == q.Keys;
    assert |q1| == |q1.Keys| == |q|;
  }

  ghost function Undecided(p: Payload): set<int>
    requires p.sig.Some?
  {
    set i | i in p.sig.value.quorum && p.sig.value.quorum[i].status == SigAwait
  }

  // A participant may answer the proposal now.
  ghost predicate CanReply(p: Payload, r: Request)
    requires p.sig.Some?
  {
    && r.ReplyRequest? && Valid(r) && r.pid in p.sig.value.quorum
    && r.createdAt <= p.sig.value.quorum[r.pid].updatedAt + PROPOSAL_DEADLINE
    && p.sig.value.quorum[r.pid].status == SigAwait
  }

  // A participant's answer came more than a week after its last one.
  ghost predicate TooLate(p: Payload, r: Request)
    requires p.sig.Some?
  {
    && r.ReplyRequest? && Valid(r) && r.pid in p.sig.value.quorum
    && p.sig.value.quorum[r.pid].updatedAt + PROPOSAL_DEADLINE < r.createdAt
  }

  ghost function Outcome(p: Payload, e: Event, r: Request): (res: DoResult)
    requires p.sig.Some? && CanReply(p, r)
    ensures res.Moved?
  {
    var p1 := P.WithReply(p, r.pid, if e == ConfirmProposal then SigConfirmed else SigDeclined, r.createdAt);
    if SigExpired(p1.sig.value) then Moved(ProposalCanceledByTimeout, p1, NoData)
    else if e == DeclineProposal then Moved(ProposalCanceledByParticipant, p1, NoData)
    else if Undecided(p) != {r.pid} then Moved(AwaitParticipants, p1, NoData)
    else Moved(ProposalCollected, p1,
      ProposalStatuses(map i | i in p1.sig.value.quorum :: p1.sig.value.quorum[i].status))
  }

  lemma ReplyEffect(p: Payload, r: Request, status: SigStatus)
    requires Inv(Inst(AwaitParticipants, p)) && CanReply(p, r)
    requires status == SigConfirmed || status == SigDeclined
    ensures var q := P.WithReply(p, r.pid, status, r.createdAt).sig.value.quorum;
            && (P.AnyDeclined(q) <==> status == SigDeclined)
            && (status == SigConfirmed ==> (P.AllAgreed(q) <==> Undecided(p) == {r.pid}))
            && (status == SigConfirmed && Undecided(p) != {r.pid} ==> exists i :: i in q && q[i].status == SigAwait)
  {
    var q0 := p.sig.value.quorum;
    var q := P.WithReply(p, r.pid, status, r.createdAt).sig.value.quorum;
    assert r.pid in q && q[r.pid].status == status;
    assert r.pid in Undecided(p);
    if status == SigConfirmed && Undecided(p) != {r.pid} {
      var j := Another(Undecided(p), r.pid);
      assert j in q && q[j].status == SigAwait;
    }
    if status == SigConfirmed && Undecided(p) == {r.pid} {
      forall i | i in q
        ensures q[i].status == SigConfirmed
      {
        assert i in q0 && (i in Undecided(p) <==> q0[i].status == SigAwait);
      }
    }
  }

  lemma RespondSays(p: Payload, e: Event, r: Request)
    requires p.sig.Some? && Inv(Inst(AwaitParticipants, p)) && IsReply(e)
    ensures CanReply(p, r) ==> Respond(e, p, r) == Outcome(p, e, r)
    ensures TooLate(p, r) ==> Respond(e, p, r) == Moved(ProposalCanceledByTimeout, p, NoData)
    ensures !CanReply(p, r) && !TooLate(p, r) ==> Respond(e, p, r).Rejected? && !Fatal(Respond(e, p, r).err)
  {
    hide Inv, Roster, ProposalOpen, Undecided, P.AnyDeclined, P.AllAgreed;
    if CanReply(p, r) {
      ReplyEffect(p, r, if e == ConfirmProposal then SigConfirmed else SigDeclined);
    }
  }

  lemma RespondKeeps(p: Payload, e: Event, r: Request)
    requires p.sig.Some? && Inv(Inst(AwaitParticipants, p)) && IsReply(e)
    ensures match Respond(e, p, r)
            case Rejected(err) => !Fatal(err)
            case Moved(s, p1, data) =>
              if s == ProposalCollected
              then Roster(p1) && ProposalAgreed(p1) && p1.dkg.None? && p1.signing.None?
              else Inv(Inst(s, p1)) && data == NoData
  {
    hide Respond, Roster;
    RespondSays(p, e, r);
    if CanReply(p, r) {
      var status := if e == ConfirmProposal then SigConfirmed else SigDeclined;
      ReplyRoster(p, r.pid, status, r.createdAt);
      ReplyEffect(p, r, status);
    }
  }

  // ---------------------------------------------------------------- DKG

  lemma FreshQuorum(q: DkgQuorum, sq: SigQuorum, deadline: Time)
    requires q == D.FromProposal(sq) && 0 in sq
    ensures !D.AnyErrored(q, Commits) && !D.AllConfirmed(q, Commits)
    ensures forall i | i in q :: OnTrack(q[i], Commits, deadline)
    ensures 0 in q && q[0].status == Awaiting(Commits)
  {
    forall i | i in q
      ensures OnTrack(q[i], Commits, deadline)
    {
      assert forall s: Stage :: Index(s) >= Index(Commits);
    }
  }

  lemma SettleStageSays(stage: Stage, p: Payload, data: Data)
    requires p.dkg.Some? && !D.AnyErrored(p.dkg.value.quorum, stage)
    ensures SettleStage(stage, p, data) ==
            var c := p.dkg.value;
            if DkgExpired(c) then Moved(DkgCanceledByTimeout(stage), p, data)
            else if stage == MasterKeys && D.KeysDiffer(c.quorum) then
              Moved(DkgCanceledByError(MasterKeys), D.WithQuorum(p, D.Mismatched(c.quorum)), data)
            else if !D.AllConfirmed(c.quorum, stage) then Moved(DkgAwait(stage), p, data)
            else Moved(StageTarget(stage, DkgConfirmedInternal(stage)),
                       D.WithQuorum(p, D.Restatused(c.quorum, D.Following(stage))),
                       if stage == MasterKeys then data else D.Collected(stage, c.quorum))
  {
    hide D.KeysDiffer, D.AnyErrored, D.AllConfirmed, D.Mismatched, D.Restatused, AnswerList, Sorted, D.WithQuorum;
  }

  ghost function Opened(p: Payload, now: Time): Payload
    requires p.sig.Some?
  {
    p.(dkg := Some(DkgConfirmation(D.FromProposal(p.sig.value.quorum), now, 0, now + DKG_DEADLINE, [])))
  }

  ghost function Invited(p: Payload): Data
    requires p.sig.Some?
  {
    var q := D.FromProposal(p.sig.value.quorum);
    StageInput(Commits, p.threshold, KeyList(Sorted(q.Keys), q))
  }

  lemma DkgInitSays(p: Payload, now: Time)
    requires Roster(p) && p.dkg.None?
    ensures D.Init(p, DefaultRequest(now)) == Reply(DkgInit, Invited(p), Opened(p, now))
  {
    hide KeyList, Sorted, D.FromProposal;
    assert 0 in p.sig.value.quorum && p.sig.value.quorum[0].threshold == p.threshold;
  }

  // The hand-over opens the commit stage and asks every participant for its commits.
  lemma OpenSays(p: Payload, now: Time)
    requires p.sig.Some? && Roster(p) && p.dkg.None? && 0 < now
    ensures Open(p, DefaultRequest(now)) == Moved(DkgAwait(Commits), Opened(p, now), Invited(p))
  {
    hide KeyList, Sorted, OnTrack, SettleStage, D.Init, D.AnyErrored, D.AllConfirmed, D.Collected, D.KeysDiffer,
         D.Mismatched, D.Restatused, D.FromProposal, Invited;
    DkgInitSays(p, now);
    assert 0 in p.sig.value.quorum;
    hide Roster;
    FreshQuorum(D.FromProposal(p.sig.value.quorum), p.sig.value.quorum, now + DKG_DEADLINE);
    SettleStageSays(Commits, Opened(p, now), Invited(p));
  }

  lemma OpenKeeps(p: Payload, now: Time)
    requires Roster(p) && p.dkg.None? && p.signing.None? && 0 < now
    ensures Inv(Inst(DkgAwait(Commits), Opened(p, now)))
  {
    hide OnTrack;
    var sq := p.sig.value.quorum;
    assert 0 in sq;
    FreshQuorum(D.FromProposal(sq), sq, now + DKG_DEADLINE);
  }

  ghost function Waiting(q: DkgQuorum, stage: Stage): set<int> {
    set i | i in q && q[i].status == Awaiting(stage)
  }

  // A participant may confirm the stage now.
  ghost predicate CanConfirm(stage: Stage, p: Payload, r: Request)
    requires p.dkg.Some?
  {
    && r.ConfirmationRequest? && r.stage == stage && Valid(r)
    && r.pid in p.dkg.value.quorum && p.dkg.value.quorum[r.pid].status == Awaiting(stage)
  }

  // What a confirmation leads to: too late, contradicting keys, more to come, or the next stage.
  ghost function ConfirmOutcome(stage: Stage, p: Payload, r: Request): (res: DoResult)
    requires p.dkg.Some? && CanConfirm(stage, p, r)
    ensures res.Moved? && InStage(res.state, stage)
  {
    var p1 := D.Stored(p, r);
    var q1 := p1.dkg.value.quorum;
    if p.dkg.value.expiresAt < r.createdAt then Moved(DkgCanceledByTimeout(stage), p1, NoData)
    else if stage == MasterKeys && D.KeysDiffer(q1) then
      Moved(DkgCanceledByError(MasterKeys), D.WithQuorum(p1, D.Mismatched(q1)), NoData)
    else if Waiting(p.dkg.value.quorum, stage) != {r.pid} then Moved(DkgAwait(stage), p1, NoData)
    else Moved(StageTarget(stage, DkgConfirmedInternal(stage)),
               D.WithQuorum(p1, D.Restatused(q1, D.Following(stage))), D.Collected(stage, q1))
  }

  // Storing one confirmation in a quorum that waits for it.
  lemma QuorumEffect(q: DkgQuorum, stage: Stage, pid: int, d: DkgParticipant)
    requires forall i | i in q :: q[i].status == Awaiting(stage) || q[i].status == Confirmed(stage)
    requires pid in q && q[pid].status == Awaiting(stage) && d.status == Confirmed(stage)
    ensures var q1 := q[pid := d];
            && Waiting(q1, stage) == Waiting(q, stage) - {pid}
            && !D.AnyErrored(q1, stage)
            && (D.AllConfirmed(q1, stage) <==> Waiting(q, stage) == {pid})
  {
    var q1 := q[pid := d];
    forall i
      ensures i in Waiting(q1, stage) <==> i in Waiting(q, stage) && i != pid
    {
      assert i in q1 <==> i in q;
    }
    assert pid in Waiting(q, stage);
    if Waiting(q, stage) != {pid} {
      var j := Another(Waiting(q, stage), pid);
      assert j in q1 && q1[j].status == Awaiting(stage);
    } else {
      forall i | i in q1
        ensures q1[i].status == Confirmed(stage)
      {
        assert i != pid ==> i in q && i !in Waiting(q, stage);
      }
    }
  }

  lemma ReceiveSays(stage: Stage, p: Payload, r: Request)
    requires p.dkg.Some?
    ensures CanConfirm(stage, p, r) ==> D.Receive(stage, p, r) == Reply(NoEvent, NoData, D.Stored(p, r))
    ensures !CanConfirm(stage, p, r) ==> D.Receive(stage, p, r).Refuse? && !Fatal(D.Receive(stage, p, r).err)
  {
    hide D.Stored;
  }

  ghost predicate Statused(q: DkgQuorum, stage: Stage) {
    forall i | i in q :: q[i].status == Awaiting(stage) || q[i].status == Confirmed(stage)
  }

  lemma ConfirmSays(stage: Stage, p: Payload, r: Request)
    requires p.dkg.Some? && Statused(p.dkg.value.quorum, stage)
    ensures CanConfirm(stage, p, r) ==> Confirm(stage, p, r) == ConfirmOutcome(stage, p, r)
    ensures !CanConfirm(stage, p, r) ==> Confirm(stage, p, r).Rejected? && !Fatal(Confirm(stage, p, r).err)
  {
    hide D.Receive, SettleStage, Waiting, D.AnyErrored, D.AllConfirmed, D.KeysDiffer, D.Mismatched, D.Restatused,
         D.Collected, D.WithQuorum;
    ReceiveSays(stage, p, r);
    if CanConfirm(stage, p, r) {
      var d := D.Answered(p.dkg.value.quorum[r.pid], stage, r.content, r.createdAt);
      QuorumEffect(p.dkg.value.quorum, stage, r.pid, d);
      assert D.Stored(p, r).dkg.value.quorum == p.dkg.value.quorum[r.pid := d];
      SettleStageSays(stage, D.Stored(p, r), NoData);
    }
  }

  // Two quorums of the same participants.
  ghost predicate SamePeople(q: DkgQuorum, q1: DkgQuorum) {
    && q1.Keys == q.Keys
    && forall i | i in q :: q1[i].username == q[i].username && q1[i].dkgPubKey == q[i].dkgPubKey
  }

  lemma RosterKept(p: Payload, p1: Payload)
    requires SameRoster(p) && p1.dkg.Some? && p1.sig == p.sig && p1.threshold == p.threshold && p1.ids == p.ids
    requires SamePeople(p.dkg.value.quorum, p1.dkg.value.quorum)
    ensures SameRoster(p1)
  {
  }

  lemma StoredKeeps(stage: Stage, p: Payload, r: Request)
    requires p.dkg.Some? && StageOpen(p, stage) && CanConfirm(stage, p, r) && r.createdAt <= p.dkg.value.expiresAt
    ensures var c, c1 := p.dkg.value, D.Stored(p, r).dkg.value;
            && SamePeople(c.quorum, c1.quorum) && c1.expiresAt == c.expiresAt && c1.updatedAt == r.createdAt
            && (forall i | i in c1.quorum :: OnTrack(c1.quorum[i], stage, c1.expiresAt))
  {
    hide D.KeysDiffer;
    var c, c1 := p.dkg.value, D.Stored(p, r).dkg.value;
    assert c1.quorum.Keys == c.quorum.Keys;
    assert OnTrack(c.quorum[r.pid], stage, c.expiresAt);
  }

  lemma StayOpen(stage: Stage, p: Payload, r: Request)
    requires p.dkg.Some? && StageOpen(p, stage) && CanConfirm(stage, p, r) && r.createdAt <= p.dkg.value.expiresAt
    requires Waiting(p.dkg.value.quorum, stage) != {r.pid}
    requires stage == MasterKeys ==> !D.KeysDiffer(D.Stored(p, r).dkg.value.quorum)
    ensures StageOpen(D.Stored(p, r), stage)
  {
    StoredKeeps(stage, p, r);
    var j := Another(Waiting(p.dkg.value.quorum, stage), r.pid);
    hide D.KeysDiffer, OnTrack;
    var q1 := D.Stored(p, r).dkg.value.quorum;
    assert j in q1 && q1[j].status == Awaiting(stage);
  }

  // Everyone confirmed: the quorum moves on to the next stage.
  lemma NextOpens(stage: Stage, q: DkgQuorum, deadline: Time)
    requires stage != MasterKeys && D.AllConfirmed(q, stage)
    requires forall i | i in q :: OnTrack(q[i], stage, deadline)
    ensures var q1 := D.Restatused(q, D.Following(stage));
            SamePeople(q, q1) && forall i | i in q1 :: OnTrack(q1[i], NextStage(stage), deadline)
  {
    var next, q1 := NextStage(stage), D.Restatused(q, D.Following(stage));
    forall i | i in q1
      ensures OnTrack(q1[i], next, deadline)
    {
      assert OnTrack(q[i], stage, deadline) && q[i].status == Confirmed(stage);
      forall s: Stage | Index(s) < Index(next)
        ensures Answer(q1[i], s) != []
      {
        assert Index(s) < Index(stage) || s == stage;
        assert Answer(q1[i], s) == Answer(q[i], s);
      }
    }
  }

  lemma AllDone(q: DkgQuorum, deadline: Time)
    requires D.AllConfirmed(q, MasterKeys) && !D.KeysDiffer(q)
    requires forall i | i in q :: OnTrack(q[i], MasterKeys, deadline)
    ensures D.Restatused(q, Confirmed(MasterKeys)) == q
    ensures forall i | i in q :: Finished(q[i], deadline)
    ensures forall i, j | i in q && j in q :: Answer(q[i], MasterKeys) == Answer(q[j], MasterKeys)
  {
    forall i | i in q
      ensures Finished(q[i], deadline)
    {
      assert OnTrack(q[i], MasterKeys, deadline);
      forall s: Stage
        ensures Answer(q[i], s) != []
      {
        assert Index(s) < Index(MasterKeys) || s == MasterKeys;
      }
    }
  }

  lemma MismatchSeen(p: Payload)
    requires p.dkg.Some? && D.KeysDiffer(p.dkg.value.quorum)
    ensures AnyDkgError(D.WithQuorum(p, D.Mismatched(p.dkg.value.quorum)))
  {
    var q := p.dkg.value.quorum;
    var i, j :| i in q && j in q && Answer(q[i], MasterKeys) != Answer(q[j], MasterKeys);
    assert i in D.Mismatched(q) && D.Mismatched(q)[i].error.Some?;
  }

  lemma OpenIsStatused(p: Payload, stage: Stage)
    requires p.dkg.Some? && StageOpen(p, stage)
    ensures Statused(p.dkg.value.quorum, stage)
  {
    var c := p.dkg.value;
    forall i | i in c.quorum
      ensures c.quorum[i].status == Awaiting(stage) || c.quorum[i].status == Confirmed(stage)
    {
      assert OnTrack(c.quorum[i], stage, c.expiresAt);
    }
  }

  // The payload once every participant confirmed the stage.
  ghost function Completed(stage: Stage, p: Payload, r: Request): Payload
    requires r.ConfirmationRequest? && p.dkg.Some? && r.pid in p.dkg.value.quorum
  {
    var p1 := D.Stored(p, r);
    D.WithQuorum(p1, D.Restatused(p1.dkg.value.quorum, D.Following(stage)))
  }

  lemma LastStored(stage: Stage, p: Payload, r: Request)
    requires p.dkg.Some? && StageOpen(p, stage) && CanConfirm(stage, p, r) && SameRoster(p)
    requires r.createdAt <= p.dkg.value.expiresAt && Waiting(p.dkg.value.quorum, stage) == {r.pid}
    ensures D.AllConfirmed(D.Stored(p, r).dkg.value.quorum, stage) && SameRoster(D.Stored(p, r))
  {
    hide OnTrack, D.KeysDiffer, Roster, SameRoster;
    var c := p.dkg.value;
    StoredKeeps(stage, p, r);
    OpenIsStatused(p, stage);
    QuorumEffect(c.quorum, stage, r.pid, D.Answered(c.quorum[r.pid], stage, r.content, r.createdAt));
    RosterKept(p, D.Stored(p, r));
  }

  lemma AdvanceKeeps(stage: Stage, p: Payload, r: Request)
    requires p.dkg.Some? && StageOpen(p, stage) && CanConfirm(stage, p, r) && SameRoster(p) && stage != MasterKeys
    requires r.createdAt <= p.dkg.value.expiresAt && Waiting(p.dkg.value.quorum, stage) == {r.pid}
    ensures SameRoster(Completed(stage, p, r)) && StageOpen(Completed(stage, p, r), NextStage(stage))
  {
    hide OnTrack, StageOpen, Roster, SameRoster, Waiting, D.AllConfirmed;
    LastStored(stage, p, r);
    StoredKeeps(stage, p, r);
    var p1 := D.Stored(p, r);
    NextOpens(stage, p1.dkg.value.quorum, p1.dkg.value.expiresAt);
    RosterKept(p1, Completed(stage, p, r));
    NextStageOpen(stage, p1, r);
  }

  lemma NextStageOpen(stage: Stage, p: Payload, r: Request)
    requires p.dkg.Some? && stage != MasterKeys && r.ConfirmationRequest? && r.pid in p.dkg.value.quorum
    requires !DkgExpired(p.dkg.value)
    requires var q := D.Restatused(p.dkg.value.quorum, D.Following(stage));
             forall i | i in q :: OnTrack(q[i], NextStage(stage), p.dkg.value.expiresAt)
    ensures StageOpen(D.WithQuorum(p, D.Restatused(p.dkg.value.quorum, D.Following(stage))), NextStage(stage))
  {
    hide OnTrack;
    var q := D.Restatused(p.dkg.value.quorum, D.Following(stage));
    assert r.pid in q && q[r.pid].status == Awaiting(NextStage(stage));
  }

  lemma CompletionKeeps(p: Payload, r: Request)
    requires p.dkg.Some? && StageOpen(p, MasterKeys) && CanConfirm(MasterKeys, p, r) && SameRoster(p)
    requires r.createdAt <= p.dkg.value.expiresAt && Waiting(p.dkg.value.quorum, MasterKeys) == {r.pid}
    requires !D.KeysDiffer(D.Stored(p, r).dkg.value.quorum)
    ensures DkgComplete(Completed(MasterKeys, p, r))
  {
    hide OnTrack, StageOpen, Roster, SameRoster, Waiting, D.AllConfirmed, Finished, D.KeysDiffer;
    LastStored(MasterKeys, p, r);
    StoredKeeps(MasterKeys, p, r);
    var p1 := D.Stored(p, r);
    AllDone(p1.dkg.value.quorum, p1.dkg.value.expiresAt);
    assert Completed(MasterKeys, p, r) == p1;
  }

  lemma ConfirmKeeps(stage: Stage, p: Payload, r: Request)
    requires p.sig.Some? && p.dkg.Some? && SameRoster(p) && StageOpen(p, stage)
    requires p.signing.None? && CanConfirm(stage, p, r)
    ensures var res := ConfirmOutcome(stage, p, r);
            && (res.state != MasterKeyCollected ==> Inv(Inst(res.state, res.payload)))
            && (res.state == MasterKeyCollected ==> DkgComplete(res.payload) && res.payload.signing.None?)
  {
    hide Roster, OnTrack, StageOpen, SameRoster, Waiting, DkgComplete, AnyDkgError, D.KeysDiffer, D.Restatused,
         D.Mismatched, D.Collected;
    var p1 := D.Stored(p, r);
    if r.createdAt <= p.dkg.value.expiresAt {
      if stage == MasterKeys && D.KeysDiffer(p1.dkg.value.quorum) {
        MismatchSeen(p1);
      } else if Waiting(p.dkg.value.quorum, stage) != {r.pid} {
        StayOpen(stage, p, r);
        StoredKeeps(stage, p, r);
        RosterKept(p, p1);
      } else if stage == MasterKeys {
        CompletionKeeps(p, r);
      } else {
        AdvanceKeeps(stage, p, r);
      }
    }
  }

  // A participant may report that it cannot answer the stage.
  ghost predicate CanFail(stage: Stage, p: Payload, r: Request)
    requires p.dkg.Some?
  {
    && r.DkgErrorRequest? && Valid(r)
    && r.pid in p.dkg.value.quorum && p.dkg.value.quorum[r.pid].status == Awaiting(stage)
  }

  lemma FailSays(stage: Stage, p: Payload, r: Request)
    requires p.sig.Some? && p.dkg.Some? && p.signing.None?
    ensures match Fail(stage, p, r)
            case Rejected(err) => !Fatal(err) && !CanFail(stage, p, r)
            case Moved(s, p1, data) =>
              CanFail(stage, p, r) && s == DkgCanceledByError(stage) && data == NoData && Inv(Inst(s, p1))
  {
    if CanFail(stage, p, r) {
      var p1 := D.ConfirmationError(stage, p, r).payload;
      assert r.pid in p1.dkg.value.quorum && p1.dkg.value.quorum[r.pid].error.Some?;
    }
  }

  // ---------------------------------------------------------------- signing

  ghost function SigningOpened(p: Payload, now: Time): Payload {
    p.(signing := Some(SigningConfirmation("", 0, map[], [], now, 0, now + SIGNING_DEADLINE)))
  }

  // Signing does not touch what the DKG left behind.
  lemma CompleteKept(p: Payload, p1: Payload)
    requires DkgComplete(p) && p1.sig.Some? && p1.sig.value.quorum == p.sig.value.quorum
    requires p1.dkg == p.dkg && p1.threshold == p.threshold && p1.ids == p.ids
    ensures DkgComplete(p1)
  {
  }

  lemma OpenSigningKeeps(p: Payload, now: Time)
    requires p.sig.Some? && DkgComplete(p) && 0 < now
    ensures OpenSigning(p, DefaultRequest(now)) == Moved(SigningIdle, SigningOpened(p, now), NoData)
    ensures Inv(Inst(SigningIdle, SigningOpened(p, now)))
  {
    hide DkgComplete;
    CompleteKept(p, SigningOpened(p, now));
  }

  ghost predicate CanStart(r: Request) {
    r.SigningStartRequest? && Valid(r)
  }

  ghost function Started(p: Payload, r: Request): Payload
    requires p.signing.Some? && p.dkg.Some? && r.SigningStartRequest?
  {
    p.(signing := Some(p.signing.value.(createdAt := r.createdAt, batchId := r.batchId, initiator := r.pid,
                                        srcPayload := r.tasks,
                                        quorum := S.FreshQuorum(p.dkg.value.quorum, r.createdAt))))
  }

  ghost function Signed(p: Payload): nat
    requires p.signing.Some?
  {
    |S.WithStatus(p.signing.value.quorum, SignsConfirmed)|
  }

  ghost function Gaveup(p: Payload): nat
    requires p.signing.Some?
  {
    |S.WithStatus(p.signing.value.quorum, SigningFailed)|
  }

  lemma FreshSigners(q: DkgQuorum, at: Time)
    ensures var sq := S.FreshQuorum(q, at);
            && S.WithStatus(sq, SignsConfirmed) == {} && S.WithStatus(sq, SigningFailed) == {}
            && (forall i | i in sq :: SignerKeeps(sq[i]))
            && |sq| == |q|
  {
    var sq := S.FreshQuorum(q, at);
    assert |sq| == |sq.Keys| && |q| == |q.Keys|;
  }

  lemma StartedKeeps(p: Payload, r: Request)
    requires p.sig.Some? && SigningReady(p) && r.SigningStartRequest?
    ensures SigningReady(Started(p, r)) && SigningOpen(Started(p, r))
    ensures Signed(Started(p, r)) == 0 && Gaveup(Started(p, r)) == 0
    ensures |Started(p, r).signing.value.quorum| == Size(p)
  {
    hide SignerKeeps, S.WithStatus, Finished;
    FreshSigners(p.dkg.value.quorum, r.createdAt);
    hide S.FreshQuorum;
    CompleteKept(p, Started(p, r));
    assert |p.dkg.value.quorum| == |p.dkg.value.quorum.Keys| == |p.sig.value.quorum.Keys|;
  }

  ghost function Asked(p: Payload, r: Request): Data
    requires p.dkg.Some? && r.SigningStartRequest?
  {
    var q := S.FreshQuorum(p.dkg.value.quorum, r.createdAt);
    SigningInvitations(r.batchId, r.pid, r.tasks, SignerList(Sorted(q.Keys), q))
  }

  lemma StartSays(p: Payload, r: Request)
    requires p.dkg.Some? && p.signing.Some?
    ensures CanStart(r) ==> Start(p, r) == SettleSigning(Started(p, r), Asked(p, r))
    ensures !CanStart(r) ==> Start(p, r).Rejected? && !Fatal(Start(p, r).err)
  {
    hide SettleSigning, SignerList, Sorted;
  }

  // The verdict on a batch: expired, too many failures, too few signatures, or enough.
  lemma SettleSigningSays(p: Payload, data: Data)
    requires p.signing.Some? && !SigningExpired(p.signing.value)
    ensures SettleSigning(p, data) ==
            var c := p.signing.value;
            if Gaveup(p) > |c.quorum| - p.threshold then Moved(SigningCanceledByError, p, data)
            else if Signed(p) < p.threshold then Moved(SigningAwait, p, data)
            else Moved(SigningCollected, p.(signing := Some(c.(quorum := S.Processing(c.quorum)))),
                       CollectedSigns(c.batchId, c.srcPayload,
                                      SignsList(Sorted(c.quorum.Keys), S.Processing(c.quorum))))
  {
    hide SignsList, Sorted, S.Processing, S.WithStatus;
  }

  lemma StartStays(p: Payload, r: Request)
    requires p.sig.Some? && p.dkg.Some? && SigningReady(p) && CanStart(r)
    ensures Start(p, r) == Moved(SigningAwait, Started(p, r), Asked(p, r))
  {
    assert THRESHOLD_MIN <= p.threshold <= Size(p);
    hide Start, SettleSigning, DkgComplete, SigningOpen, Asked, Valid, Roster, S.FreshQuorum, Signed, Gaveup,
         S.Processing, SignsList, Sorted;
    StartSays(p, r);
    StartedKeeps(p, r);
    SettleSigningSays(Started(p, r), Asked(p, r));
  }

  ghost predicate CanSign(e: Event, p: Payload, r: Request)
    requires p.signing.Some?
  {
    && (if e == PartialSign then r.PartialSignsRequest? else r.SigningErrorRequest?) && Valid(r)
    && r.pid in p.signing.value.quorum && p.signing.value.quorum[r.pid].status == SigningAwaitSigns
  }

  // The participant after its answer to the batch.
  ghost function Signer(e: Event, d: SigningParticipant, r: Request): SigningParticipant
    requires if e == PartialSign then r.PartialSignsRequest? else r.SigningErrorRequest?
  {
    if e == PartialSign
    then d.(partialSigns := S.AddSigns(d.partialSigns, r.signs), status := SignsConfirmed, updatedAt := r.createdAt)
    else d.(status := SigningFailed, error := r.error, updatedAt := r.createdAt)
  }

  ghost function SignStored(e: Event, p: Payload, r: Request): Payload
    requires p.signing.Some? && p.sig.Some? && CanSign(e, p, r)
  {
    S.WithSigner(p, r.pid, Signer(e, p.signing.value.quorum[r.pid], r), r.createdAt)
  }

  ghost function Batch(c: SigningConfirmation): Data {
    CollectedSigns(c.batchId, c.srcPayload, SignsList(Sorted(c.quorum.Keys), S.Processing(c.quorum)))
  }

  ghost function Closed(p: Payload): Payload
    requires p.signing.Some?
  {
    p.(signing := Some(p.signing.value.(quorum := S.Processing(p.signing.value.quorum))))
  }

  // The t-th signature collects the batch; one failure more than N-t cancels it.
  ghost function SignOutcome(e: Event, p: Payload, r: Request): (res: DoResult)
    requires p.signing.Some? && p.sig.Some? && CanSign(e, p, r)
    ensures res.Moved? && (res.state == SigningCollected ==> res.data.CollectedSigns?)
  {
    var p1 := SignStored(e, p, r);
    if e == PartialSign then
      if Signed(p) + 1 == p.threshold then Moved(SigningCollected, Closed(p1), Batch(p1.signing.value))
      else Moved(SigningAwait, p1, NoData)
    else
      if Gaveup(p) + 1 == Size(p) - p.threshold + 1 then Moved(SigningCanceledByError, p1, NoData)
      else Moved(SigningAwait, p1, NoData)
  }

  lemma StatusMoves(q: SigningQuorum, pid: int, d: SigningParticipant, status: SigningStatus)
    requires pid in q && q[pid].status != status
    ensures |S.WithStatus(q[pid := d], status)| == |S.WithStatus(q, status)| + if d.status == status then 1 else 0
  {
    var q1 := q[pid := d];
    if d.status == status {
      assert S.WithStatus(q1, status) == S.WithStatus(q, status) + {pid};
      assert pid !in S.WithStatus(q, status);
    } else {
      assert S.WithStatus(q1, status) == S.WithStatus(q, status);
    }
  }

  lemma {:induction false} SignsAdded(m: map<string, Bytes>, signs: seq<SignEntry>)
    requires signs != [] || m != map[]
    ensures S.AddSigns(m, signs) != map[]
    decreases |signs|
  {
    if signs != [] {
      var m1 := m[signs[0].messageId := signs[0].sign];
      assert signs[0].messageId in m1;
      SignsAdded(m1, signs[1..]);
    }
  }

  lemma SignCounts(e: Event, p: Payload, r: Request)
    requires p.signing.Some? && p.sig.Some? && IsSign(e) && CanSign(e, p, r)
    ensures var p1 := SignStored(e, p, r);
            && Signed(p1) == Signed(p) + (if e == PartialSign then 1 else 0)
            && Gaveup(p1) == Gaveup(p) + (if e == PartialSign then 0 else 1)
            && p1.signing.value.quorum.Keys == p.signing.value.quorum.Keys
            && |p1.signing.value.quorum| == |p.signing.value.quorum|
  {
    var q := p.signing.value.quorum;
    var d := Signer(e, q[r.pid], r);
    StatusMoves(q, r.pid, d, SignsConfirmed);
    StatusMoves(q, r.pid, d, SigningFailed);
    hide S.WithStatus, S.AddSigns;
    assert q[r.pid := d].Keys == q.Keys;
    assert |q[r.pid := d]| == |q[r.pid := d].Keys| == |q.Keys| == |q|;
  }

  lemma SignActs(e: Event, p: Payload, r: Request)
    requires p.signing.Some? && p.sig.Some? && IsSign(e)
    ensures CanSign(e, p, r) ==> Sign(e, p, r) == SettleSigning(SignStored(e, p, r), NoData)
    ensures !CanSign(e, p, r) ==> Sign(e, p, r).Rejected? && !Fatal(Sign(e, p, r).err)
  {
    hide SettleSigning, S.AddSigns;
  }

  lemma SignSays(e: Event, p: Payload, r: Request)
    requires p.signing.Some? && p.sig.Some? && IsSign(e) && SigningReady(p) && SigningOpen(p)
    ensures CanSign(e, p, r) ==> Sign(e, p, r) == SignOutcome(e, p, r)
    ensures !CanSign(e, p, r) ==> Sign(e, p, r).Rejected? && !Fatal(Sign(e, p, r).err)
  {
    hide Sign, SettleSigning, DkgComplete, SignerKeeps, S.AddSigns, S.Processing, SignsList, Sorted;
    SignActs(e, p, r);
    if CanSign(e, p, r) {
      SignCounts(e, p, r);
      assert |p.signing.value.quorum| == |p.signing.value.quorum.Keys| == |p.sig.value.quorum.Keys| == Size(p);
      SettleSigningSays(SignStored(e, p, r), NoData);
    }
  }

  lemma SignStoredKeeps(e: Event, p: Payload, r: Request)
    requires p.signing.Some? && p.sig.Some? && IsSign(e) && SigningReady(p) && SigningOpen(p) && CanSign(e, p, r)
    ensures var p1 := SignStored(e, p, r);
            && SigningReady(p1)
            && (forall i | i in p1.signing.value.quorum :: SignerKeeps(p1.signing.value.quorum[i]))
            && SigningReady(Closed(p1))
  {
    hide DkgComplete, S.WithStatus, S.Processing;
    var p1 := SignStored(e, p, r);
    if e == PartialSign {
      SignsAdded(p.signing.value.quorum[r.pid].partialSigns, r.signs);
    }
    hide S.AddSigns;
    CompleteKept(p, p1);
    CompleteKept(p, Closed(p1));
  }

  lemma SignKeeps(e: Event, p: Payload, r: Request)
    requires p.signing.Some? && p.sig.Some? && IsSign(e) && SigningReady(p) && SigningOpen(p) && CanSign(e, p, r)
    ensures var res := SignOutcome(e, p, r);
            && (res.state != SigningCollected ==> Inv(Inst(res.state, res.payload)))
            && (res.state == SigningCollected ==> SigningReady(res.payload))
  {
    hide SigningReady, SignerKeeps, S.AddSigns, S.Processing, S.WithStatus, Batch, Closed, Valid;
    SignStoredKeeps(e, p, r);
    SignCounts(e, p, r);
  }
}
