/** Every round holds exactly what the messages it accepted say. */
module Provenance {
  import opened Names
  import opened Payloads
  import opened NodeStep
  import opened Moves
  import opened RoundInvariant
  import opened Preservation
  import opened Steps
  import opened Runs
  import opened History
  import Ceremony
  import Threshold
  import P = ProposalActions
  import D = DkgActions
  import S = SigningActions

  // ---------------------------------------------------------------- a proposal

  lemma {:induction false} KeysListed(ps: seq<ParticipantEntry>, n: nat)
    requires n <= |ps| && UniqueUsernames(ps)
    ensures var keys := P.KeyMap(map[], ps, n);
            && (forall k | 0 <= k < n :: ps[k].username in keys && keys[ps[k].username] == ps[k].pubKey)
            && (forall name :: name in keys ==> exists k :: 0 <= k < n && ps[k].username == name)
  {
    if n > 0 {
      KeysListed(ps, n - 1);
      var keys := P.KeyMap(map[], ps, n);
      forall name | name in keys
        ensures exists k :: 0 <= k < n && ps[k].username == name
      {
        if name != ps[n - 1].username {
          assert name in P.KeyMap(map[], ps, n - 1);
          var k :| 0 <= k < n - 1 && ps[k].username == name;
        }
      }
    }
  }

  lemma {:induction false} IdsListed(ps: seq<ParticipantEntry>, n: nat)
    requires n <= |ps| && UniqueUsernames(ps)
    ensures var ids := P.IdMap(map[], ps, n);
            && (forall k | 0 <= k < n :: ps[k].username in ids && ids[ps[k].username] == k)
            && (forall name :: name in ids ==> exists k :: 0 <= k < n && ps[k].username == name)
  {
    if n > 0 {
      IdsListed(ps, n - 1);
      var ids := P.IdMap(map[], ps, n);
      forall name | name in ids
        ensures exists k :: 0 <= k < n && ps[k].username == name
      {
        if name != ps[n - 1].username {
          assert name in P.IdMap(map[], ps, n - 1);
          var k :| 0 <= k < n - 1 && ps[k].username == name;
        }
      }
    }
  }

  lemma ProposalListed(p: Payload, r: Request)
    requires p == EmptyPayload(p.dkgId) && r.ProposalRequest? && Valid(r)
    ensures P.Init(p, r).Reply?
    ensures var p1 := P.Init(p, r).payload;
            && p1.dkg.None? && p1.signing.None? && OfProposal(p1, r) && p1.sig.value.updatedAt == 0
            && forall k | k in p1.sig.value.quorum ::
                 p1.sig.value.quorum[k].status == SigAwait && p1.sig.value.quorum[k].updatedAt == r.createdAt
  {
    hide InvitationList, Sorted, P.KeyMap, P.IdMap, Range, Listed, ValidEntry;
    var p1, ps := P.Init(p, r).payload, r.participants;
    KeysListed(ps, |ps|);
    IdsListed(ps, |ps|);
    forall k | 0 <= k < |ps|
      ensures Listed(p1, ps[k], k, r.threshold)
    {
      OneListed(p1, ps, r.threshold, r.createdAt, k);
    }
  }

  lemma OneListed(p: Payload, ps: seq<ParticipantEntry>, threshold: int, at: Time, k: nat)
    requires p.sig.Some? && k < |ps| && p.sig.value.quorum == P.NewQuorum(ps, threshold, at)
    requires ps[k].username in p.ids && p.ids[ps[k].username] == k
    requires ps[k].username in p.pubKeys && p.pubKeys[ps[k].username] == ps[k].pubKey
    ensures Listed(p, ps[k], k, threshold)
  {
  }

  // The move leaves the payload as the callback wrote it.
  lemma ProposeWrites(p: Payload, r: Request)
    requires P.Init(p, r).Reply? && Propose(p, r).Moved?
    ensures Propose(p, r).payload == P.Init(p, r).payload && Propose(p, r).state != GlobalIdle
    ensures Propose(p, r).state != SigningCollected && !Propose(p, r).state.DkgCanceledByError?
  {
    hide P.Init;
  }

  lemma RecordsProposal(i: Inst, r: Request, now: Time)
    requires Inv(i) && i.state == GlobalIdle && Records(i, []) && r.ProposalRequest? && Valid(r)
    ensures Propose(i.payload, r).Moved?
    ensures Records(Landed(Propose(i.payload, r)), [Fact(InitProposal, r, now)])
  {
    hide Inv, Valid, P.Init, Propose;
    var h := [Fact(InitProposal, r, now)];
    TakenProposal(i.payload, r, now);
    ProposalListed(i.payload, r);
    ProposeWrites(i.payload, r);
    NothingHeard(h);
  }

  // A history with nothing but a proposal says nothing else.
  lemma NothingHeard(h: seq<Fact>)
    requires |h| == 1 && h[0].event == InitProposal
    ensures TouchTime(h) == 0 && NoDkg(h) && (forall f | f in h :: f.event == InitProposal)
    ensures forall k, e | e != InitProposal :: Last(h, e, k) == None
  {
    assert h[..0] == [];
  }

  // ---------------------------------------------------------------- what stays

  // The payloads have the same participants.
  ghost predicate SameParticipants(p: Payload, p1: Payload) {
    && p.sig.Some? && p1.sig.Some? && p1.threshold == p.threshold && p1.ids == p.ids && p1.pubKeys == p.pubKeys
    && p1.sig.value.createdAt == p.sig.value.createdAt && p1.sig.value.expiresAt == p.sig.value.expiresAt
    && p1.sig.value.quorum.Keys == p.sig.value.quorum.Keys
    && forall k | k in p.sig.value.quorum ::
         var d, d1 := p.sig.value.quorum[k], p1.sig.value.quorum[k];
         d1 == d.(status := d1.status, updatedAt := d1.updatedAt)
  }

  lemma StillListed(p: Payload, p1: Payload, r: Request)
    requires r.ProposalRequest? && OfProposal(p, r) && SameParticipants(p, p1)
    ensures OfProposal(p1, r)
  {
    hide Range;
    forall k | 0 <= k < |r.participants|
      ensures Listed(p1, r.participants[k], k, r.threshold)
    {
      assert Listed(p, r.participants[k], k, r.threshold);
    }
  }

  lemma {:induction false} NoDkgSays(h: seq<Fact>)
    requires NoDkg(h)
    ensures DkgTime(h) == 0 && Poly(h) == []
    ensures forall k :: LastDkg(h, k) == None
    ensures forall k, stage: Stage :: Last(h, DkgConfirm(stage), k) == None
    decreases |h|
  {
    if h != [] {
      var n := |h| - 1;
      assert h[n] in h && forall f | f in h[..n] :: f in h;
      NoDkgSays(h[..n]);
    }
  }

  lemma NoDkgGrows(h: seq<Fact>, f: Fact)
    requires NoDkg(h) && !IsDkg(f.event)
    ensures NoDkg(h + [f])
  {
  }

  lemma NoStartGrows(h: seq<Fact>, f: Fact)
    requires (forall g | g in h :: g.event != SigningStart) && f.event != SigningStart
    ensures forall g | g in h + [f] :: g.event != SigningStart
  {
  }

  // ---------------------------------------------------------------- replies to the proposal

  lemma RepliesMore(p: Payload, h: seq<Fact>, e: Event, r: Request, now: Time)
    requires p.sig.Some? && Replies(p.sig.value, h) && IsReply(e) && CanReply(p, r)
    ensures var p1 := P.WithReply(p, r.pid, if e == ConfirmProposal then SigConfirmed else SigDeclined, r.createdAt);
            Replies(p1.sig.value, h + [Fact(e, r, now)]) && SameParticipants(p, p1)
  {
    hide Valid, Last;
    var f := Fact(e, r, now);
    var p1 := P.WithReply(p, r.pid, if e == ConfirmProposal then SigConfirmed else SigDeclined, r.createdAt);
    TimesGrow(h, f);
    forall k | k in p1.sig.value.quorum
      ensures Replied(p1.sig.value.quorum[k], h + [f], k, p1.sig.value.createdAt)
    {
      LastGrows(h, f, ConfirmProposal, k);
      LastGrows(h, f, DeclineProposal, k);
      assert Replied(p.sig.value.quorum[k], h, k, p.sig.value.createdAt);
    }
  }

  // The DKG opens with nothing heard of it.
  lemma OpenedRecords(p: Payload, h: seq<Fact>, now: Time)
    requires p.sig.Some? && p.dkg.None? && NoDkg(h) && Clock(h, ConfirmProposal) == now
    ensures OfDkg(Opened(p, now), h)
    ensures Errors(Inst(DkgAwait(Commits), Opened(p, now)), h)
  {
    hide Clock, DkgTime, Poly, LastDkg, Last;
    NoDkgSays(h);
  }

  lemma RecordsReply(i: Inst, h: seq<Fact>, e: Event, r: Request, now: Time)
    requires Inv(i) && i.state == AwaitParticipants && Records(i, h) && IsReply(e) && i.payload.sig.Some?
    requires CanReply(i.payload, r) || TooLate(i.payload, r)
    ensures Respond(e, i.payload, r).Moved?
    ensures Records(Landed(Proposed(Respond(e, i.payload, r), now)), h + [Fact(e, r, now)])
  {
    hide Inv, Respond, Valid, OfProposal, Replies, Opened, Clock, P.WithReply, OfDkg, Errors, Preservation.Invited,
         NoDkg, SigExpired;
    var p, f := i.payload, Fact(e, r, now);
    assert i == Inst(AwaitParticipants, p);
    RespondSays(p, e, r);
    NoDkgYet(i, h);
    NoDkgGrows(h, f);
    NoStartGrows(h, f);
    if CanReply(p, r) {
      var p1 := P.WithReply(p, r.pid, if e == ConfirmProposal then SigConfirmed else SigDeclined, r.createdAt);
      ReplyFrame(p, e, r);
      RepliesMore(p, h, e, r, now);
      StillListed(p, p1, h[0].data);
      NoDkgRecords(Landed(Outcome(p, e, r)), h + [f]);
      if Outcome(p, e, r).state == ProposalCollected {
        TimesGrow(h, f);
        OpenedFrame(p1, now);
        StillListed(p1, Opened(p1, now), h[0].data);
        OpenedRecords(p1, h + [f], now);
      }
    } else {
      NoDkgRecords(Inst(ProposalCanceledByTimeout, p), h + [f]);
    }
  }

  lemma NoDkgYet(i: Inst, h: seq<Fact>)
    requires Inv(i) && i.state == AwaitParticipants && i.payload.sig.Some? && OfDkg(i.payload, h)
    ensures i.payload.dkg.None? && i.payload.signing.None? && NoDkg(h)
  {
    hide Roster, ProposalOpen, NoDkg;
  }

  lemma NoDkgRecords(i: Inst, h: seq<Fact>)
    requires i.payload.sig.Some? && i.payload.dkg.None? && NoDkg(h)
    ensures OfDkg(i.payload, h) && Errors(i, h)
  {
  }

  lemma ReplyFrame(p: Payload, e: Event, r: Request)
    requires p.sig.Some? && CanReply(p, r)
    ensures var p1 := P.WithReply(p, r.pid, if e == ConfirmProposal then SigConfirmed else SigDeclined, r.createdAt);
            p1.sig.Some? && p1.dkg == p.dkg && p1.signing == p.signing
  {
    hide Valid;
  }

  lemma OpenedFrame(p: Payload, now: Time)
    requires p.sig.Some?
    ensures var p1 := Opened(p, now);
            SameParticipants(p, p1) && p1.sig == p.sig && p1.signing == p.signing
  {
    hide D.FromProposal;
  }

  // ---------------------------------------------------------------- answers to a stage

  // The participant's answer is the one of the fact; everybody else's are as before.
  lemma AnswersMore(d: DkgParticipant, s: SigParticipant, h: seq<Fact>, stage: Stage, r: Request, now: Time, k: int)
    requires AsAnswered(d, s, h, k) && r.ConfirmationRequest?
    ensures var h1 := h + [Fact(DkgConfirm(stage), r, now)];
            && (k != r.pid ==> AsAnswered(d, s, h1, k))
            && (k == r.pid ==> AsAnswered(D.Answered(d, stage, r.content, r.createdAt), s, h1, k))
  {
    hide Last, LastDkg;
    var f := Fact(DkgConfirm(stage), r, now);
    LastGrows(h, f, DkgConfirm(stage), k);
    forall st: Stage
      ensures Given(h + [f], st, k) == if st == stage && k == r.pid then r.content else Given(h, st, k)
    {
      LastGrows(h, f, DkgConfirm(st), k);
    }
  }

  lemma StoredRecords(stage: Stage, p: Payload, h: seq<Fact>, r: Request, now: Time)
    requires p.sig.Some? && p.dkg.Some? && OfDkg(p, h) && CanConfirm(stage, p, r)
    ensures var p1 := D.Stored(p, r); OfDkg(p1, h + [Fact(DkgConfirm(stage), r, now)])
  {
    hide Valid, AsAnswered, DkgTime, Poly, Clock, D.Answered;
    var f, p1 := Fact(DkgConfirm(stage), r, now), D.Stored(p, r);
    TimesGrow(h, f);
    forall k | k in p1.dkg.value.quorum
      ensures AsAnswered(p1.dkg.value.quorum[k], p.sig.value.quorum[k], h + [f], k)
    {
      AnswersMore(p.dkg.value.quorum[k], p.sig.value.quorum[k], h, stage, r, now, k);
    }
  }

  // A payload with other statuses or errors holds the same answers.
  lemma StatusesDoNotMatter(p: Payload, q: DkgQuorum, h: seq<Fact>)
    requires p.sig.Some? && p.dkg.Some? && OfDkg(p, h) && q.Keys == p.dkg.value.quorum.Keys
    requires forall k | k in q ::
               q[k] == p.dkg.value.quorum[k].(status := q[k].status, error := q[k].error)
    ensures OfDkg(D.WithQuorum(p, q), h)
  {
    hide DkgTime, Poly, Clock, Last, LastDkg;
    forall k | k in q
      ensures AsAnswered(q[k], p.sig.value.quorum[k], h, k)
    {
      assert AsAnswered(p.dkg.value.quorum[k], p.sig.value.quorum[k], h, k);
      assert forall stage: Stage :: Answer(q[k], stage) == Answer(p.dkg.value.quorum[k], stage);
    }
  }

  lemma StoredFrame(stage: Stage, p: Payload, r: Request)
    requires p.sig.Some? && p.dkg.Some? && CanConfirm(stage, p, r)
    ensures var p1 := D.Stored(p, r);
            && p1.dkg.Some? && p1.sig == p.sig && p1.signing == p.signing && SameParticipants(p, p1)
            && p1.dkg.value.quorum.Keys == p.dkg.value.quorum.Keys
            && forall k | k in p.dkg.value.quorum :: p1.dkg.value.quorum[k].error == p.dkg.value.quorum[k].error
  {
    hide Valid;
  }

  lemma ClashBlames(q: DkgQuorum, f: Fact)
    requires D.KeysDiffer(q) && f.event == DkgConfirm(MasterKeys)
    ensures Blamed(D.Mismatched(q), MasterKeys, f)
  {
    var i, j :| i in q && j in q && Answer(q[i], MasterKeys) != Answer(q[j], MasterKeys);
    var q1 := D.Mismatched(q);
    assert i in q1 && j in q1 && q1[i].answers == q[i].answers && q1[j].answers == q[j].answers;
    assert Answer(q1[i], MasterKeys) == Answer(q[i], MasterKeys);
    assert Answer(q1[j], MasterKeys) == Answer(q[j], MasterKeys);
  }

  // What an accepted answer makes of the DKG part.
  lemma OutcomeRecords(stage: Stage, p: Payload, h: seq<Fact>, r: Request, now: Time)
    requires p.sig.Some? && p.dkg.Some? && OfDkg(p, h) && CanConfirm(stage, p, r)
    requires forall k | k in p.dkg.value.quorum :: p.dkg.value.quorum[k].error.None?
    ensures var res, h1 := ConfirmOutcome(stage, p, r), h + [Fact(DkgConfirm(stage), r, now)];
            && res.payload.sig == p.sig && res.payload.signing == p.signing && SameParticipants(p, res.payload)
            && OfDkg(res.payload, h1) && Errors(Inst(res.state, res.payload), h1)
  {
    hide Valid, OfDkg, D.Stored, D.KeysDiffer, D.Collected, D.Mismatched, D.Restatused, Errors, Waiting,
         D.WithQuorum, SameParticipants;
    var p1, f := D.Stored(p, r), Fact(DkgConfirm(stage), r, now);
    StoredRecords(stage, p, h, r, now);
    StoredFrame(stage, p, r);
    var q1 := p1.dkg.value.quorum;
    if stage == MasterKeys && D.KeysDiffer(q1) {
      ClashRecords(p, p1, h, f);
    }
    NewStatusRecords(p, p1, D.Following(stage), h + [f]);
    UnchangedErrors(Inst(ConfirmOutcome(stage, p, r).state, p1), h + [f]);
  }

  lemma UnchangedErrors(i: Inst, h: seq<Fact>)
    requires i.payload.dkg.Some? ==> forall k | k in i.payload.dkg.value.quorum ::
               i.payload.dkg.value.quorum[k].error.None?
    ensures !i.state.DkgCanceledByError? ==> Errors(i, h)
  {
    hide Blamed;
  }

  lemma ClashRecords(p: Payload, p1: Payload, h: seq<Fact>, f: Fact)
    requires p.sig.Some? && p1.dkg.Some? && p1.sig == p.sig && p1.signing == p.signing && SameParticipants(p, p1)
    requires OfDkg(p1, h + [f]) && D.KeysDiffer(p1.dkg.value.quorum) && f.event == DkgConfirm(MasterKeys)
    ensures var p2 := D.WithQuorum(p1, D.Mismatched(p1.dkg.value.quorum));
            && p2.sig == p.sig && p2.signing == p.signing && SameParticipants(p, p2)
            && OfDkg(p2, h + [f]) && Errors(Inst(DkgCanceledByError(MasterKeys), p2), h + [f])
  {
    hide OfDkg, D.KeysDiffer, D.Mismatched, Blamed;
    var q1 := p1.dkg.value.quorum;
    Grows(h, f);
    MismatchedIs(q1);
    StatusesDoNotMatter(p1, D.Mismatched(q1), h + [f]);
    ClashBlames(q1, f);
  }

  lemma NewStatusRecords(p: Payload, p1: Payload, status: DkgStatus, h: seq<Fact>)
    requires p.sig.Some? && p1.dkg.Some? && p1.sig == p.sig && p1.signing == p.signing && SameParticipants(p, p1)
    requires OfDkg(p1, h) && forall k | k in p1.dkg.value.quorum :: p1.dkg.value.quorum[k].error.None?
    ensures var p2 := D.WithQuorum(p1, D.Restatused(p1.dkg.value.quorum, status));
            && p2.sig == p.sig && p2.signing == p.signing && SameParticipants(p, p2) && OfDkg(p2, h)
            && forall s: State | !s.DkgCanceledByError? :: Errors(Inst(s, p2), h)
  {
    hide OfDkg, Blamed;
    var q1 := p1.dkg.value.quorum;
    RestatusedIs(q1, status);
    StatusesDoNotMatter(p1, D.Restatused(q1, status), h);
  }

  lemma MismatchedIs(q: DkgQuorum)
    ensures var r := D.Mismatched(q);
            r.Keys == q.Keys && forall k | k in q :: r[k] == q[k].(status := r[k].status, error := r[k].error)
  {
  }

  lemma RestatusedIs(q: DkgQuorum, status: DkgStatus)
    ensures var r := D.Restatused(q, status);
            r.Keys == q.Keys && forall k | k in q :: r[k] == q[k].(status := r[k].status, error := q[k].error)
  {
  }

  lemma {:induction false} NoStartSays(h: seq<Fact>)
    requires forall f | f in h :: f.event != SigningStart
    ensures LastStart(h) == None
    decreases |h|
  {
    if h != [] {
      var n := |h| - 1;
      assert h[n] in h && forall f | f in h[..n] :: f in h;
      NoStartSays(h[..n]);
    }
  }

  lemma SigningOpens(p: Payload, h: seq<Fact>, now: Time)
    requires (forall f | f in h :: f.event != SigningStart) && Clock(h, DkgConfirm(MasterKeys)) == now
    ensures OfSigning(Inst(SigningIdle, SigningOpened(p, now)), h)
  {
    hide Clock, LastStart;
    NoStartSays(h);
  }

  // The parts of a record.
  lemma RecordParts(i: Inst, h: seq<Fact>)
    requires Records(i, h) && i.state != GlobalIdle
    ensures h != [] && h[0].event == InitProposal && h[0].data.ProposalRequest? && OfProposal(i.payload, h[0].data)
    ensures i.payload.sig.Some? && OfDkg(i.payload, h) && Errors(i, h) && OfSigning(i, h)
    ensures i.state != ProposalCanceledByTimeout ==> Replies(i.payload.sig.value, h)
  {
    hide OfProposal, Replies, OfDkg, Errors, OfSigning;
    assert OfProposal(i.payload, h[0].data);
    ListedHasSig(i.payload, h[0].data);
  }

  lemma RecordsFrom(i: Inst, h: seq<Fact>)
    requires i.state != GlobalIdle && i.state != ProposalCanceledByTimeout && i.payload.sig.Some?
    requires h != [] && h[0].event == InitProposal && h[0].data.ProposalRequest? && OfProposal(i.payload, h[0].data)
    requires Replies(i.payload.sig.value, h) && OfDkg(i.payload, h) && Errors(i, h) && OfSigning(i, h)
    ensures Records(i, h)
  {
    hide OfProposal, Replies, OfDkg, Errors, OfSigning;
  }

  lemma ListedHasSig(p: Payload, r: Request)
    requires r.ProposalRequest? && OfProposal(p, r)
    ensures p.sig.Some?
  {
  }

  // What a later fact leaves of the proposal's part.
  lemma ProposalStays(p: Payload, p1: Payload, h: seq<Fact>, f: Fact)
    requires p.sig.Some? && h != [] && h[0].data.ProposalRequest? && OfProposal(p, h[0].data) && Replies(p.sig.value, h)
    requires SameParticipants(p, p1) && p1.sig == p.sig && !Touches(f.event)
    ensures OfProposal(p1, (h + [f])[0].data) && Replies(p1.sig.value, h + [f])
  {
    hide OfProposal, Last, TouchTime, SameParticipants;
    StillListed(p, p1, h[0].data);
    TimesGrow(h, f);
    forall k | k in p.sig.value.quorum
      ensures Replied(p.sig.value.quorum[k], h + [f], k, p.sig.value.createdAt)
    {
      LastGrows(h, f, ConfirmProposal, k);
      LastGrows(h, f, DeclineProposal, k);
      assert Replied(p.sig.value.quorum[k], h, k, p.sig.value.createdAt);
    }
  }

  lemma RecordsAnswer(i: Inst, h: seq<Fact>, stage: Stage, r: Request, now: Time)
    requires Inv(i) && i.state == DkgAwait(stage) && Records(i, h) && i.payload.dkg.Some?
    requires CanConfirm(stage, i.payload, r)
    ensures Records(Landed(Concluded(ConfirmOutcome(stage, i.payload, r), now)), h + [Fact(DkgConfirm(stage), r, now)])
  {
    hide Inv, CanConfirm, OfProposal, Replies, OfDkg, Errors, OfSigning, ConfirmOutcome, Clock, SameParticipants,
         StageOpen, SameRoster, SigningOpened, SigningReady, SigningOpen, Records;
    var p, f := i.payload, Fact(DkgConfirm(stage), r, now);
    var res := ConfirmOutcome(stage, p, r);
    RecordParts(i, h);
    Parts(i);
    NoErrors(i, h);
    OutcomeRecords(stage, p, h, r, now);
    ProposalStays(p, res.payload, h, f);
    NotSigning(i, h, Inst(res.state, res.payload), f);
    AnswerEnds(stage, p, r);
    if res.state == MasterKeyCollected {
      KeyCollected(stage, p, r);
      KeyRecords(res, h, f, now);
    } else {
      assert Landed(Concluded(res, now)) == Inst(res.state, res.payload);
      RecordsFrom(Inst(res.state, res.payload), h + [f]);
    }
  }

  // With the last master key signing opens.
  lemma KeyRecords(res: Ceremony.DoResult, h: seq<Fact>, f: Fact, now: Time)
    requires res.Moved? && res.state == MasterKeyCollected && res.payload.sig.Some? && h != []
    requires h[0].event == InitProposal && h[0].data.ProposalRequest? && OfProposal(res.payload, (h + [f])[0].data)
    requires Replies(res.payload.sig.value, h + [f]) && OfDkg(res.payload, h + [f])
    requires Errors(Inst(res.state, res.payload), h + [f]) && (forall g | g in h + [f] :: g.event != SigningStart)
    requires f.event == DkgConfirm(MasterKeys) && f.now == now
    ensures Records(Landed(Concluded(res, now)), h + [f])
  {
    hide OfProposal, Replies, OfDkg, Errors, OfSigning, Clock, SameParticipants, SigningOpened, Records;
    TimesGrow(h, f);
    SigningOpenedFrame(res.payload, now, h + [f], res.state);
    StillListed(res.payload, SigningOpened(res.payload, now), h[0].data);
    SigningOpens(res.payload, h + [f], now);
    RecordsFrom(Inst(SigningIdle, SigningOpened(res.payload, now)), h + [f]);
  }

  lemma AnswerEnds(stage: Stage, p: Payload, r: Request)
    requires p.dkg.Some? && CanConfirm(stage, p, r)
    ensures var s := ConfirmOutcome(stage, p, r).state;
            s != GlobalIdle && s != ProposalCanceledByTimeout && s != SigningCollected
  {
    hide CanConfirm, ConfirmOutcome;
  }

  lemma NoErrors(i: Inst, h: seq<Fact>)
    requires Errors(i, h) && i.state.DkgAwait? && i.payload.dkg.Some?
    ensures forall k | k in i.payload.dkg.value.quorum :: i.payload.dkg.value.quorum[k].error.None?
  {
    hide Blamed;
  }

  lemma NotSigning(i: Inst, h: seq<Fact>, n: Inst, f: Fact)
    requires OfSigning(i, h) && i.payload.signing.None? && n.payload.signing.None? && f.event != SigningStart
    ensures OfSigning(n, h + [f]) && forall g | g in h + [f] :: g.event != SigningStart
  {
    NoStartGrows(h, f);
  }

  lemma SigningOpenedFrame(p: Payload, now: Time, h: seq<Fact>, s: State)
    requires p.sig.Some? && OfDkg(p, h) && Errors(Inst(s, p), h) && !s.DkgCanceledByError?
    ensures var p1 := SigningOpened(p, now);
            && p1.sig == p.sig && p1.dkg == p.dkg && SameParticipants(p, p1) && OfDkg(p1, h)
            && Errors(Inst(SigningIdle, p1), h)
  {
    hide AsAnswered, NoDkg, Clock, DkgTime, Poly;
  }

  lemma KeyCollected(stage: Stage, p: Payload, r: Request)
    requires p.dkg.Some? && CanConfirm(stage, p, r) && ConfirmOutcome(stage, p, r).state == MasterKeyCollected
    ensures stage == MasterKeys
  {
    hide CanConfirm, D.Stored, D.KeysDiffer, D.Collected, D.Mismatched, D.Restatused, Waiting;
  }

  // ---------------------------------------------------------------- error reports

  lemma ReportWrites(stage: Stage, p: Payload, r: Request)
    requires p.sig.Some? && p.dkg.Some? && CanFail(stage, p, r)
    ensures Fail(stage, p, r).Moved?
    ensures var d := p.dkg.value.quorum[r.pid].(status := Errored(stage), error := r.error, updatedAt := r.createdAt);
            var p1 := Fail(stage, p, r).payload;
            && p1.dkg == Some(p.dkg.value.(quorum := p.dkg.value.quorum[r.pid := d], updatedAt := r.createdAt))
            && p1.sig == p.sig && p1.signing == p.signing && SameParticipants(p, p1)
  {
  }

  lemma ReportRecords(stage: Stage, p: Payload, h: seq<Fact>, r: Request, now: Time)
    requires p.sig.Some? && p.dkg.Some? && OfDkg(p, h) && CanFail(stage, p, r)
    requires forall k | k in p.dkg.value.quorum :: p.dkg.value.quorum[k].error.None?
    ensures var res, h1 := Fail(stage, p, r), h + [Fact(DkgError(stage), r, now)];
            && res.Moved? && OfDkg(res.payload, h1) && Errors(Inst(res.state, res.payload), h1)
  {
    hide Valid, OfDkg, Fail, Blamed;
    var f := Fact(DkgError(stage), r, now);
    ReportWrites(stage, p, r);
    Grows(h, f);
    ReportBlames(p.dkg.value.quorum, stage, f);
    var d := p.dkg.value.quorum[r.pid].(status := Errored(stage), error := r.error, updatedAt := r.createdAt);
    ReportDkg(p, h, stage, r, now, d);
    var c := p.dkg.value.(quorum := p.dkg.value.quorum[r.pid := d], updatedAt := r.createdAt);
    SamePart(p, Fail(stage, p, r).payload, h + [f], c);
  }

  lemma SamePart(p: Payload, p1: Payload, h: seq<Fact>, c: DkgConfirmation)
    requires p.sig.Some? && p1.sig == p.sig && p1.dkg == Some(c) && OfDkg(p.(dkg := Some(c)), h)
    ensures OfDkg(p1, h)
  {
    hide AsAnswered, DkgTime, Poly, Clock;
  }

  lemma ReportDkg(p: Payload, h: seq<Fact>, stage: Stage, r: Request, now: Time, d: DkgParticipant)
    requires p.sig.Some? && p.dkg.Some? && OfDkg(p, h) && r.DkgErrorRequest? && r.pid in p.dkg.value.quorum
    requires d == p.dkg.value.quorum[r.pid].(status := Errored(stage), error := r.error, updatedAt := r.createdAt)
    ensures OfDkg(p.(dkg := Some(p.dkg.value.(quorum := p.dkg.value.quorum[r.pid := d], updatedAt := r.createdAt))),
                  h + [Fact(DkgError(stage), r, now)])
  {
    hide DkgTime, Poly, Clock, AsAnswered;
    var f := Fact(DkgError(stage), r, now);
    TimesGrow(h, f);
    var q := p.dkg.value.quorum;
    var q1 := q[r.pid := d];
    forall k | k in q1
      ensures AsAnswered(q1[k], p.sig.value.quorum[k], h + [f], k)
    {
      assert AsAnswered(q[k], p.sig.value.quorum[k], h, k);
      ReportAnswers(q[k], p.sig.value.quorum[k], h, stage, r, now, k);
    }
  }

  lemma ReportBlames(q: DkgQuorum, stage: Stage, f: Fact)
    requires f.event == DkgError(stage) && f.data.DkgErrorRequest? && f.data.pid in q
    requires forall k | k in q :: q[k].error.None?
    ensures var r := f.data;
            Blamed(q[r.pid := q[r.pid].(status := Errored(stage), error := r.error, updatedAt := r.createdAt)], stage,
              f)
  {
  }

  lemma ReportAnswers(d: DkgParticipant, s: SigParticipant, h: seq<Fact>, stage: Stage, r: Request, now: Time, k: int)
    requires AsAnswered(d, s, h, k) && r.DkgErrorRequest?
    ensures var h1 := h + [Fact(DkgError(stage), r, now)];
            && (k != r.pid ==> AsAnswered(d, s, h1, k))
            && (k == r.pid ==>
                  AsAnswered(d.(status := Errored(stage), error := r.error, updatedAt := r.createdAt), s, h1, k))
  {
    hide Last, LastDkg;
    var f := Fact(DkgError(stage), r, now);
    LastGrows(h, f, DkgError(stage), k);
    forall st: Stage
      ensures Given(h + [f], st, k) == Given(h, st, k)
    {
      LastGrows(h, f, DkgConfirm(st), k);
    }
  }

  lemma RecordsReport(i: Inst, h: seq<Fact>, stage: Stage, r: Request, now: Time)
    requires Inv(i) && i.state == DkgAwait(stage) && Records(i, h)
    requires i.payload.dkg.Some? && CanFail(stage, i.payload, r)
    ensures Fail(stage, i.payload, r).Moved?
    ensures Records(Landed(Fail(stage, i.payload, r)), h + [Fact(DkgError(stage), r, now)])
  {
    hide Inv, CanFail, OfProposal, Replies, OfDkg, Errors, OfSigning, Fail, SameParticipants, StageOpen, SameRoster,
         SigningReady, SigningOpen, Records;
    var p, f := i.payload, Fact(DkgError(stage), r, now);
    RecordParts(i, h);
    Parts(i);
    NoErrors(i, h);
    ReportWrites(stage, p, r);
    ReportRecords(stage, p, h, r, now);
    ProposalStays(p, Fail(stage, p, r).payload, h, f);
    NotSigning(i, h, Landed(Fail(stage, p, r)), f);
    RecordsFrom(Landed(Fail(stage, p, r)), h + [f]);
  }

  // ---------------------------------------------------------------- signing

  // A fact that is not of the DKG leaves its part.
  lemma DkgStays(p: Payload, p1: Payload, h: seq<Fact>, f: Fact)
    requires p.sig.Some? && p1.sig.Some? && p.dkg.Some? && p1.dkg == p.dkg && OfDkg(p, h)
    requires p1.sig.value.quorum == p.sig.value.quorum && !IsDkg(f.event) && f.event != ConfirmProposal
    ensures OfDkg(p1, h + [f])
  {
    hide DkgTime, Poly, Clock, Last, LastDkg;
    TimesGrow(h, f);
    forall k | k in p.dkg.value.quorum
      ensures AsAnswered(p.dkg.value.quorum[k], p.sig.value.quorum[k], h + [f], k)
    {
      assert AsAnswered(p.dkg.value.quorum[k], p.sig.value.quorum[k], h, k);
      LastGrows(h, f, ConfirmProposal, k);
      forall st: Stage
        ensures Given(h + [f], st, k) == Given(h, st, k)
      {
        LastGrows(h, f, DkgConfirm(st), k);
      }
    }
  }

  // Replies to a batch touch the time of the proposal, and nothing else of it.
  lemma ProposalTouched(p: Payload, p1: Payload, h: seq<Fact>, f: Fact)
    requires p.sig.Some? && h != [] && h[0].data.ProposalRequest? && OfProposal(p, h[0].data) && Replies(p.sig.value, h)
    requires SameParticipants(p, p1) && p1.sig == Some(p.sig.value.(updatedAt := CreatedAt(f.data)))
    requires f.event == PartialSign || f.event == PartialSignError
    ensures OfProposal(p1, (h + [f])[0].data) && Replies(p1.sig.value, h + [f])
  {
    hide OfProposal, Last, TouchTime, SameParticipants;
    StillListed(p, p1, h[0].data);
    TimesGrow(h, f);
    forall k | k in p.sig.value.quorum
      ensures Replied(p.sig.value.quorum[k], h + [f], k, p.sig.value.createdAt)
    {
      LastGrows(h, f, ConfirmProposal, k);
      LastGrows(h, f, DeclineProposal, k);
      assert Replied(p.sig.value.quorum[k], h, k, p.sig.value.createdAt);
    }
  }

  lemma StartedFrame(p: Payload, r: Request)
    requires p.sig.Some? && p.dkg.Some? && p.signing.Some? && r.SigningStartRequest?
    ensures var p1 := Started(p, r); p1.sig == p.sig && p1.dkg == p.dkg && SameParticipants(p, p1) && p1.signing.Some?
  {
    hide S.FreshQuorum;
  }

  lemma StartRecords(i: Inst, h: seq<Fact>, r: Request, now: Time)
    requires i.payload.dkg.Some? && i.payload.signing.Some? && OfSigning(i, h) && r.SigningStartRequest?
    ensures OfSigning(Inst(SigningAwait, Started(i.payload, r)), h + [Fact(SigningStart, r, now)])
  {
    hide Clock, LastStart, InBatch;
    var f := Fact(SigningStart, r, now);
    TimesGrow(h, f);
    BatchGrows(h, f, 0);
    forall k: int
      ensures InBatch(h + [f], k) == None
    {
      BatchGrows(h, f, k);
    }
  }

  lemma ErrorsStay(i: Inst, n: Inst, h: seq<Fact>, h1: seq<Fact>)
    requires Errors(i, h) && n.payload.dkg == i.payload.dkg && InSigning(i.state) && InSigning(n.state)
    ensures Errors(n, h1)
  {
    hide Blamed;
  }

  lemma RecordsStart(i: Inst, h: seq<Fact>, r: Request, now: Time)
    requires Inv(i) && i.state == SigningIdle && Records(i, h) && CanStart(r)
    requires i.payload.dkg.Some? && i.payload.signing.Some?
    ensures Records(Inst(SigningAwait, Started(i.payload, r)), h + [Fact(SigningStart, r, now)])
  {
    hide Inv, Valid, OfProposal, Replies, OfDkg, Errors, OfSigning, SameParticipants, Started;
    var p, f := i.payload, Fact(SigningStart, r, now);
    RecordParts(i, h);
    StartedFrame(p, r);
    ProposalStays(p, Started(p, r), h, f);
    DkgStays(p, Started(p, r), h, f);
    ErrorsStay(i, Inst(SigningAwait, Started(p, r)), h, h + [f]);
    StartRecords(i, h, r, now);
  }

  lemma SignFrame(e: Event, p: Payload, r: Request)
    requires p.sig.Some? && p.signing.Some? && CanSign(e, p, r)
    ensures var p1 := SignStored(e, p, r);
            && p1.dkg == p.dkg && p1.sig == Some(p.sig.value.(updatedAt := r.createdAt)) && SameParticipants(p, p1)
            && p1.signing == Some(p.signing.value.(quorum :=
                 p.signing.value.quorum[r.pid := Signer(e, p.signing.value.quorum[r.pid], r)]))
  {
    hide Valid, Signer;
  }

  // What a participant's reply makes of its part of the batch.
  lemma SignerRecords(e: Event, d: SigningParticipant, r: Request, at: Time, now: Time)
    requires if e == PartialSign then r.PartialSignsRequest? else r.SigningErrorRequest?
    requires IsSign(e) && Signs(d, None, at)
    ensures Signs(Signer(e, d, r), Some(Fact(e, r, now)), at)
    ensures Signer(e, d, r).status == StatusOf(Some(Fact(e, r, now))) && Signer(e, d, r).username == d.username
  {
    hide S.AddSigns, SignsOf;
    if e == PartialSign {
      Threshold.ReplySigns(r.signs);
    }
  }

  // A batch as its messages say.
  ghost predicate OfBatch(c: SigningConfirmation, q: DkgQuorum, h: seq<Fact>, r: Request)
    requires r.SigningStartRequest?
  {
    && c.quorum.Keys == q.Keys
    && (forall k | k in c.quorum ::
          c.quorum[k].username == q[k].username && Signs(c.quorum[k], InBatch(h, k), r.createdAt))
  }

  ghost predicate AsReplied(c: SigningConfirmation, h: seq<Fact>) {
    forall k | k in c.quorum :: c.quorum[k].status == StatusOf(InBatch(h, k))
  }

  lemma SignRecords(i: Inst, h: seq<Fact>, e: Event, r: Request, now: Time, start: Request)
    requires i.payload.dkg.Some? && i.payload.sig.Some?
    requires i.payload.signing.Some? && IsSign(e) && CanSign(e, i.payload, r)
    requires start.SigningStartRequest? && OfBatch(i.payload.signing.value, i.payload.dkg.value.quorum, h, start)
    requires AsReplied(i.payload.signing.value, h)
    ensures var p1, h1 := SignStored(e, i.payload, r), h + [Fact(e, r, now)];
            && p1.signing.Some? && OfBatch(p1.signing.value, i.payload.dkg.value.quorum, h1, start)
            && AsReplied(p1.signing.value, h1)
  {
    hide Valid, InBatch, Signer, SignStored, Signs;
    var f := Fact(e, r, now);
    SignFrame(e, i.payload, r);
    var q, q1 := i.payload.signing.value.quorum, SignStored(e, i.payload, r).signing.value.quorum;
    var d := q[r.pid];
    assert InBatch(h, r.pid) == None by {
      assert d.status == StatusOf(InBatch(h, r.pid));
    }
    SignerRecords(e, d, r, start.createdAt, now);
    forall k | k in q1
      ensures Signs(q1[k], InBatch(h + [f], k), start.createdAt) && q1[k].status == StatusOf(InBatch(h + [f], k))
      ensures q1[k].username == q[k].username
    {
      BatchGrows(h, f, k);
    }
  }

  // The parts of the signing record while a batch runs.
  lemma BatchParts(i: Inst, h: seq<Fact>)
    requires OfSigning(i, h) && i.state == SigningAwait && i.payload.signing.Some?
    requires i.payload.signing.value.quorum != map[]
    ensures LastStart(h).Some? && LastStart(h).value.SigningStartRequest? && i.payload.dkg.Some?
    ensures OfBatch(i.payload.signing.value, i.payload.dkg.value.quorum, h, LastStart(h).value)
    ensures AsReplied(i.payload.signing.value, h)
  {
    hide LastStart, InBatch, Signs, Clock;
  }

  lemma BatchBack(i: Inst, n: Inst, h: seq<Fact>, f: Fact)
    requires OfSigning(i, h) && LastStart(h).Some? && LastStart(h).value.SigningStartRequest?
    requires i.payload.signing.Some? && n.payload.signing.Some? && n.payload.dkg == i.payload.dkg && i.payload.dkg.Some?
    requires n.payload.signing.value == i.payload.signing.value.(quorum := n.payload.signing.value.quorum)
    requires IsSign(f.event)
    requires OfBatch(n.payload.signing.value, i.payload.dkg.value.quorum, h + [f], LastStart(h).value)
    requires AsReplied(n.payload.signing.value, h + [f])
             || (n.state == SigningIdle
                 && forall k | k in n.payload.signing.value.quorum ::
                      n.payload.signing.value.quorum[k].status == SigningProcess)
    ensures OfSigning(n, h + [f])
  {
    hide LastStart, InBatch, Signs, Clock;
    TimesGrow(h, f);
    BatchGrows(h, f, 0);
  }

  lemma ClosedRecords(p: Payload, q: DkgQuorum, h: seq<Fact>, start: Request)
    requires p.signing.Some? && start.SigningStartRequest? && OfBatch(p.signing.value, q, h, start)
    ensures var p1 := Closed(p);
            && p1.signing.Some? && p1.sig == p.sig && p1.dkg == p.dkg && OfBatch(p1.signing.value, q, h, start)
            && p1.signing.value == p.signing.value.(quorum := p1.signing.value.quorum)
            && (forall k | k in p1.signing.value.quorum :: p1.signing.value.quorum[k].status == SigningProcess)
            && (p.sig.Some? ==> SameParticipants(p, p1))
  {
    hide InBatch, SignsOf;
  }

  lemma RecordsSign(i: Inst, h: seq<Fact>, e: Event, r: Request, now: Time)
    requires Inv(i) && i.state == SigningAwait && Records(i, h) && IsSign(e) && i.payload.signing.Some?
    requires i.payload.sig.Some? && CanSign(e, i.payload, r)
    ensures Records(Landed(SignOutcome(e, i.payload, r)), h + [Fact(e, r, now)])
  {
    hide Inv, CanSign, OfProposal, Replies, OfDkg, Errors, OfSigning, SameParticipants, SignStored, Closed, OfBatch,
         AsReplied, Batch, Signed, Gaveup, LastStart;
    var p, f := i.payload, Fact(e, r, now);
    RecordParts(i, h);
    SignerThere(e, p, r);
    BatchParts(i, h);
    var start := LastStart(h).value;
    SignFrame(e, p, r);
    SignRecords(i, h, e, r, now, start);
    var p1 := SignStored(e, p, r);
    ClosedRecords(p1, p.dkg.value.quorum, h + [f], start);
    var n := Landed(SignOutcome(e, p, r));
    ParticipantsStay(p, p1, n.payload);
    ProposalTouched(p, n.payload, h, f);
    DkgStays(p, n.payload, h, f);
    ErrorsStay(i, n, h, h + [f]);
    BatchBack(i, n, h, f);
  }

  lemma ParticipantsStay(p: Payload, p1: Payload, p2: Payload)
    requires SameParticipants(p, p1) && SameParticipants(p1, p2)
    ensures SameParticipants(p, p2)
  {
  }

  lemma SignerThere(e: Event, p: Payload, r: Request)
    requires p.signing.Some? && CanSign(e, p, r)
    ensures p.signing.value.quorum != map[] && CreatedAt(r) == r.createdAt
    ensures if e == PartialSign then r.PartialSignsRequest? else r.SigningErrorRequest?
  {
    hide Valid;
  }

  // ---------------------------------------------------------------- every run

  lemma ResultRecords(i: Inst, h: seq<Fact>, e: Event, r: Request, now: Time)
    requires Inv(i) && Takes(i, e, r) && Records(i, h)
    ensures Result(i, e, r, now).Moved? && Records(Landed(Result(i, e, r, now)), h + [Fact(e, r, now)])
  {
    hide Inv, Records, Landed, CanReply, TooLate, CanConfirm, CanFail, CanSign, Valid, Propose, Respond,
         ConfirmOutcome, Concluded, Proposed, Fail, SignOutcome, Started, SameRoster, StageOpen, SigningReady,
         SigningOpen;
    Parts(i);
    match i.state
    case GlobalIdle =>
      IdleRecords(i, h);
      RecordsProposal(i, r, now);
      assert h + [Fact(e, r, now)] == [Fact(InitProposal, r, now)];
    case AwaitParticipants => RecordsReply(i, h, e, r, now);
    case DkgAwait(stage) =>
      if e == DkgConfirm(stage) {
        RecordsAnswer(i, h, stage, r, now);
      } else {
        RecordsReport(i, h, stage, r, now);
      }
    case SigningIdle =>
      RecordsStart(i, h, r, now);
      assert Landed(Result(i, e, r, now)) == Inst(SigningAwait, Started(i.payload, r)) by {
        LandedAwait(Started(i.payload, r), Asked(i.payload, r));
      }
    case SigningAwait => RecordsSign(i, h, e, r, now);
  }

  lemma IdleRecords(i: Inst, h: seq<Fact>)
    requires Records(i, h) && i.state == GlobalIdle
    ensures h == []
  {
  }

  lemma LandedAwait(p: Payload, data: Data)
    ensures Landed(Ceremony.Moved(SigningAwait, p, data)) == Inst(SigningAwait, p)
  {
  }

  // A request that is taken is the message's data.
  lemma TakenData(i: Inst, m: Message)
    requires Accepts(i, m)
    ensures Decode(m).value == m.data
  {
  }

  lemma ResumedRecords(i: Inst, h: seq<Fact>)
    requires Records(i, h)
    ensures Records(Resumed(i), h)
  {
    hide OfProposal, Replies, OfDkg, LastStart, InBatch, Clock, Signs;
  }

  ghost predicate SavedRecords(saved: Option<Inst>, h: seq<Fact>) {
    match saved
    case None => h == []
    case Some(i) => Records(i, h)
  }

  lemma StepRecords(env: Env, saved: Option<Inst>, x: Input, h: seq<Fact>)
    requires SavedInv(saved) && 0 < x.now && SavedRecords(saved, h)
    ensures SavedRecords(After(env, saved, x), h + if Accepted(env, saved, x) then [FactOf(x)] else [])
  {
    hide Inv, Step, Gate, Accepts, Result, TrimSpace, Records, Landed, Decode;
    StepOnBase(env, saved, x);
    var base := Base(saved, x.m);
    assert h + [] == h;
    if base.Some? {
      FreshRecords(TrimSpace(x.m.round));
      ResumedRecords(base.value, h);
      var j := Resumed(base.value);
      if Accepts(j, x.m) {
        AcceptsTakes(j, x.m);
        TakenData(j, x.m);
        ResultRecords(j, h, x.m.event, x.m.data, x.now);
      }
    }
  }

  lemma FreshRecords(id: string)
    ensures Records(Inst(GlobalIdle, EmptyPayload(id)), [])
  {
  }

  lemma {:induction false} RunRecordsFrom(env: Env, saved: Option<Inst>, ins: seq<Input>, h: seq<Fact>)
    requires SavedInv(saved) && Clocked(ins) && SavedRecords(saved, h)
    ensures SavedRecords(RoundRun(env, saved, ins), h + FactsOf(env, saved, ins))
    decreases |ins|
  {
    hide SavedInv, SavedRecords, After, Accepted;
    if ins == [] {
      assert h + [] == h;
    } else {
      var one := if Accepted(env, saved, ins[0]) then [FactOf(ins[0])] else [];
      StepRecords(env, saved, ins[0], h);
      AfterKeeps(env, saved, ins[0]);
      RunRecordsFrom(env, After(env, saved, ins[0]), ins[1..], h + one);
      assert (h + one) + FactsOf(env, After(env, saved, ins[0]), ins[1..]) == h + FactsOf(env, saved, ins);
    }
  }

  // Over every run a round holds exactly what the messages it accepted say: the participants and keys
  // of the proposal, everybody's reply, the answers to each stage, the public polynomial, who is to
  // blame for a cancellation, and the batch with everybody's signatures or failure, with their times.
  lemma RunRecords(env: Env, ins: seq<Input>)
    requires Clocked(ins)
    ensures var saved, h := RoundRun(env, None, ins), FactsOf(env, None, ins);
            if saved.None? then h == [] else Records(saved.value, h)
  {
    hide RoundRun, FactsOf, Records;
    RunRecordsFrom(env, None, ins, []);
    assert [] + FactsOf(env, None, ins) == FactsOf(env, None, ins);
  }

  // ---------------------------------------------------------------- the id of a round

  // Trimming takes spaces from both ends, and all that are there.
  lemma {:induction false} TrimIs(s: string) returns (a: string, b: string)
    ensures s == a + TrimSpace(s) + b
    ensures (forall c | c in a :: IsSpace(c)) && (forall c | c in b :: IsSpace(c))
    ensures var t := TrimSpace(s); t != "" ==> !IsSpace(t[0]) && !IsSpace(t[|t| - 1])
    decreases |s|
  {
    hide IsSpace;
    a, b := "", "";
    if s != "" && IsSpace(s[0]) {
      a, b := TrimIs(s[1..]);
      assert s == [s[0]] + s[1..];
      a := [s[0]] + a;
    } else if s != "" && IsSpace(s[|s| - 1]) {
      a, b := TrimIs(s[..|s| - 1]);
      assert s == s[..|s| - 1] + [s[|s| - 1]];
      b := b + [s[|s| - 1]];
    }
  }

  // No step changes the id of a round.
  lemma ResultId(i: Inst, e: Event, r: Request, now: Time)
    requires Inv(i) && Takes(i, e, r) && Result(i, e, r, now).Moved?
    ensures Landed(Result(i, e, r, now)).payload.dkgId == i.payload.dkgId
  {
    hide Inv, CanReply, TooLate, CanConfirm, CanFail, CanSign, Valid, Propose, Respond, SameRoster, StageOpen,
         SigningReady, SigningOpen, Fail, ConfirmOutcome, Concluded, SignOutcome, S.FreshQuorum;
    Parts(i);
    match i.state
    case GlobalIdle => ProposeId(i.payload, r);
    case AwaitParticipants => RespondId(e, i.payload, r);
    case DkgAwait(stage) =>
      if e == DkgConfirm(stage) {
        ConfirmId(stage, i.payload, r, now);
      } else {
        FailId(stage, i.payload, r);
      }
    case SigningIdle =>
    case SigningAwait => SignId(e, i.payload, r);
  }

  lemma ProposeId(p: Payload, r: Request)
    ensures Propose(p, r).Moved? ==> Propose(p, r).payload.dkgId == p.dkgId
  {
    hide Valid, InvitationList, Sorted, P.KeyMap, P.IdMap;
  }

  lemma RespondId(e: Event, p: Payload, r: Request)
    ensures Respond(e, p, r).Moved? ==> Respond(e, p, r).payload.dkgId == p.dkgId
  {
    hide Valid;
  }

  lemma ConfirmId(stage: Stage, p: Payload, r: Request, now: Time)
    requires p.dkg.Some? && CanConfirm(stage, p, r)
    ensures Concluded(ConfirmOutcome(stage, p, r), now).payload.dkgId == p.dkgId
  {
    hide Valid, D.Mismatched, D.Restatused, D.Collected, D.KeysDiffer, Waiting;
  }

  lemma SignId(e: Event, p: Payload, r: Request)
    requires p.signing.Some? && p.sig.Some? && CanSign(e, p, r)
    ensures SignOutcome(e, p, r).payload.dkgId == p.dkgId
  {
    hide Valid, Signed, Gaveup, Signer, Batch, S.Processing;
  }

  lemma FailId(stage: Stage, p: Payload, r: Request)
    ensures Fail(stage, p, r).Moved? ==> Fail(stage, p, r).payload.dkgId == p.dkgId
  {
    hide Valid;
  }

  // A round that hears only messages for one name has that name, without the spaces around it, as id.
  lemma {:induction false} RunId(env: Env, saved: Option<Inst>, ins: seq<Input>, round: string)
    requires SavedInv(saved) && Clocked(ins) && forall k | 0 <= k < |ins| :: ins[k].m.round == round
    requires saved.Some? ==> saved.value.payload.dkgId == TrimSpace(round)
    ensures var n := RoundRun(env, saved, ins); n.Some? ==> n.value.payload.dkgId == TrimSpace(round)
    decreases |ins|
  {
    hide SavedInv, After, TrimSpace;
    if ins != [] {
      StepId(env, saved, ins[0]);
      AfterKeeps(env, saved, ins[0]);
      RunId(env, After(env, saved, ins[0]), ins[1..], round);
    }
  }

  lemma StepId(env: Env, saved: Option<Inst>, x: Input)
    requires SavedInv(saved) && 0 < x.now
    requires saved.Some? ==> saved.value.payload.dkgId == TrimSpace(x.m.round)
    ensures var n := After(env, saved, x); n.Some? ==> n.value.payload.dkgId == TrimSpace(x.m.round)
  {
    hide Inv, Step, Gate, Accepts, Result, TrimSpace, Landed, Decode, Takes;
    StepOnBase(env, saved, x);
    var base := Base(saved, x.m);
    if base.Some? {
      var j := Resumed(base.value);
      if Accepts(j, x.m) {
        AcceptsTakes(j, x.m);
        if Result(j, x.m.event, Decode(x.m).value, x.now).Moved? {
          ResultId(j, x.m.event, Decode(x.m).value, x.now);
        }
      }
    }
  }
}
