/** Progress of a ceremony: every accepted event counts, and there are 5N + 1 of them. */
module Progress {
  import opened Collections
  import opened Names
  import opened Payloads
  import opened NodeStep
  import opened Moves
  import opened RoundInvariant
  import opened Reactions
  import opened Preservation
  import opened Steps
  import opened Runs
  import P = ProposalActions
  import D = DkgActions
  import S = SigningActions

  // The events of the proposal and of the DKG.
  predicate IsCeremony(e: Event) {
    e == InitProposal || IsReply(e) || e.DkgConfirm? || e.DkgError?
  }

  // Answers collected before a stage: the invitation, one reply and the earlier stages for each.
  function Before(stage: Stage, n: nat): nat {
    match stage
    case Commits => 1 + n
    case Deals => 1 + 2 * n
    case Responses => 1 + 3 * n
    case MasterKeys => 1 + 4 * n
  }

  // How many events a running round has accepted.
  ghost function Done(i: Inst): int {
    var p := i.payload;
    match i.state
    case GlobalIdle => 0
    case AwaitParticipants => if p.sig.None? then 0 else 1 + Size(p) - |Undecided(p)|
    case DkgAwait(stage) =>
      if p.sig.None? || p.dkg.None? then 0
      else Before(stage, Size(p)) + Size(p) - |Waiting(p.dkg.value.quorum, stage)|
    case _ => if p.sig.None? then 0 else 5 * Size(p) + 1
  }

  // The step counted: it was accepted, or it cancelled the round as one of at most 5N + 1.
  ghost predicate Counts(i: Inst, n: Inst) {
    && n.payload.sig.Some?
    && (if Cancelled(n.state) then Done(i) + 1 <= 5 * Size(n.payload) + 1 else Done(n) == Done(i) + 1)
  }

  lemma UndecidedBound(p: Payload)
    requires p.sig.Some?
    ensures |Undecided(p)| <= Size(p)
    ensures (forall id | id in p.sig.value.quorum :: p.sig.value.quorum[id].status == SigAwait) ==>
              |Undecided(p)| == Size(p)
  {
    var q := p.sig.value.quorum;
    SubsetSize(Undecided(p), q.Keys);
    assert |q.Keys| == |q|;
    if forall id | id in q :: q[id].status == SigAwait {
      assert Undecided(p) == q.Keys;
    }
  }

  lemma WaitingBound(q: DkgQuorum, stage: Stage)
    ensures |Waiting(q, stage)| <= |q|
    ensures (forall id | id in q :: q[id].status == Awaiting(stage)) ==> |Waiting(q, stage)| == |q|
  {
    SubsetSize(Waiting(q, stage), q.Keys);
    assert |q.Keys| == |q|;
    if forall id | id in q :: q[id].status == Awaiting(stage) {
      assert Waiting(q, stage) == q.Keys;
    }
  }

  lemma ProposalCounts(i: Inst, r: Request)
    requires i.state == GlobalIdle && Inv(i) && Propose(i.payload, r).Moved?
    ensures Counts(i, Landed(Propose(i.payload, r)))
  {
    hide Settle, Valid, Undecided, P.Init, Roster, ProposalOpen, Propose;
    ProposeKeeps(i.payload, r);
    UndecidedBound(Propose(i.payload, r).payload);
  }

  lemma ReplyCounts(i: Inst, e: Event, r: Request, now: Time)
    requires i.state == AwaitParticipants && Inv(i) && i.payload.sig.Some? && IsReply(e) && 0 < now
    requires CanReply(i.payload, r) || TooLate(i.payload, r)
    ensures Respond(e, i.payload, r).Moved? && Counts(i, Landed(Proposed(Respond(e, i.payload, r), now)))
  {
    hide Inv, Respond, Valid, Invited, D.FromProposal, Waiting, P.WithReply, Undecided;
    var p := i.payload;
    RespondSays(p, e, r);
    UndecidedBound(p);
    if CanReply(p, r) {
      ReplyShrinks(p, r, if e == ConfirmProposal then SigConfirmed else SigDeclined);
      OpenedWaits(Respond(e, p, r).payload, now);
    }
  }

  lemma ReplyShrinks(p: Payload, r: Request, status: SigStatus)
    requires p.sig.Some? && CanReply(p, r) && status != SigAwait
    ensures var p1 := P.WithReply(p, r.pid, status, r.createdAt);
            p1.sig.Some? && Size(p1) == Size(p) && |Undecided(p1)| == |Undecided(p)| - 1 && r.pid in Undecided(p)
  {
    hide Valid;
    var p1 := P.WithReply(p, r.pid, status, r.createdAt);
    var q, q1 := p.sig.value.quorum, p1.sig.value.quorum;
    assert q1.Keys == q.Keys;
    assert |q1| == |q1.Keys| && |q| == |q.Keys|;
    assert Undecided(p1) == Undecided(p) - {r.pid};
  }

  lemma OpenedWaits(p: Payload, now: Time)
    requires p.sig.Some?
    ensures var p1 := Opened(p, now);
            p1.dkg.Some? && |Waiting(p1.dkg.value.quorum, Commits)| == Size(p) == Size(p1)
  {
    var q := D.FromProposal(p.sig.value.quorum);
    WaitingBound(q, Commits);
    assert |q| == |q.Keys| && |p.sig.value.quorum| == |p.sig.value.quorum.Keys|;
  }

  lemma StoredShrinks(stage: Stage, p: Payload, r: Request)
    requires p.dkg.Some? && Statused(p.dkg.value.quorum, stage) && CanConfirm(stage, p, r)
    ensures var q, q1 := p.dkg.value.quorum, D.Stored(p, r).dkg.value.quorum;
            && |q1| == |q| && q1.Keys == q.Keys
            && |Waiting(q1, stage)| == |Waiting(q, stage)| - 1 && r.pid in Waiting(q, stage)
  {
    hide Valid;
    var q := p.dkg.value.quorum;
    var d := D.Answered(q[r.pid], stage, r.content, r.createdAt);
    QuorumEffect(q, stage, r.pid, d);
    assert r.pid in Waiting(q, stage);
    assert q[r.pid := d].Keys == q.Keys;
    assert |q[r.pid := d]| == |q[r.pid := d].Keys| && |q| == |q.Keys|;
  }

  lemma NextWaits(stage: Stage, q: DkgQuorum)
    requires stage != MasterKeys
    ensures |Waiting(D.Restatused(q, D.Following(stage)), NextStage(stage))| == |q|
  {
    var q1 := D.Restatused(q, D.Following(stage));
    WaitingBound(q1, NextStage(stage));
    assert |q1| == |q1.Keys| && |q| == |q.Keys|;
  }

  // Where a confirmation leads, and with which quorum.
  lemma OutcomeQuorum(stage: Stage, p: Payload, r: Request)
    requires p.dkg.Some? && CanConfirm(stage, p, r)
    ensures D.Stored(p, r).dkg.Some?
    ensures var o := ConfirmOutcome(stage, p, r);
            var q1 := D.Stored(p, r).dkg.value.quorum;
            && o.payload.sig == p.sig && o.payload.dkg.Some?
            && (o.state == DkgAwait(stage) ==> o.payload.dkg.value.quorum == q1)
            && (o.state == MasterKeyCollected || (o.state.DkgAwait? && o.state != DkgAwait(stage)) ==>
                  && Waiting(p.dkg.value.quorum, stage) == {r.pid}
                  && o.payload.dkg.value.quorum == D.Restatused(q1, D.Following(stage)))
  {
    hide Valid, Waiting, D.KeysDiffer, D.Mismatched, D.Restatused, D.Collected, Answer;
  }

  lemma ConfirmCounts(stage: Stage, p: Payload, r: Request, now: Time)
    requires p.sig.Some? && p.dkg.Some? && Statused(p.dkg.value.quorum, stage) && CanConfirm(stage, p, r)
    requires |p.dkg.value.quorum| == Size(p)
    ensures Counts(Inst(DkgAwait(stage), p), Landed(Concluded(ConfirmOutcome(stage, p, r), now)))
  {
    hide Valid, Statused, Waiting, ConfirmOutcome, D.Stored, D.Restatused;
    OutcomeQuorum(stage, p, r);
    StoredShrinks(stage, p, r);
    WaitingBound(p.dkg.value.quorum, stage);
    if stage != MasterKeys {
      NextWaits(stage, D.Stored(p, r).dkg.value.quorum);
    }
  }

  lemma FailCounts(stage: Stage, p: Payload, r: Request)
    requires p.sig.Some? && p.dkg.Some? && CanFail(stage, p, r) && |p.dkg.value.quorum| == Size(p)
    ensures Fail(stage, p, r).Moved? && Counts(Inst(DkgAwait(stage), p), Landed(Fail(stage, p, r)))
  {
    hide Valid, Waiting;
    var q := p.dkg.value.quorum;
    WaitingBound(q, stage);
    assert r.pid in Waiting(q, stage) by {
      WaitingHas(q, stage, r.pid);
    }
    assert |Waiting(q, stage)| >= 1;
  }

  lemma WaitingHas(q: DkgQuorum, stage: Stage, pid: int)
    requires pid in q && q[pid].status == Awaiting(stage)
    ensures pid in Waiting(q, stage)
  {
  }

  // A running ceremony, signing not included.
  predicate InCeremony(s: State) {
    s.GlobalIdle? || s.AwaitParticipants? || s.DkgAwait?
  }

  lemma RosterSize(p: Payload)
    requires p.sig.Some? && p.dkg.Some? && SameRoster(p)
    ensures |p.dkg.value.quorum| == Size(p)
  {
    assert |p.dkg.value.quorum| == |p.dkg.value.quorum.Keys| && Size(p) == |p.sig.value.quorum.Keys|;
  }

  lemma ResultCounts(i: Inst, e: Event, r: Request, now: Time)
    requires Inv(i) && Takes(i, e, r) && InCeremony(i.state) && 0 < now
    ensures Result(i, e, r, now).Moved? && Counts(i, Landed(Result(i, e, r, now)))
    ensures IsCeremony(e)
  {
    hide Inv, SigningReady, StageOpen, SameRoster, CanReply, TooLate, CanConfirm, CanFail, Valid, Propose, Respond,
         ConfirmOutcome, Fail, Counts, Landed, Concluded, Proposed, ThenOpen;
    Parts(i);
    match i.state
    case GlobalIdle =>
      TakenProposal(i.payload, r, now);
      ProposalCounts(i, r);
    case AwaitParticipants => ReplyCounts(i, e, r, now);
    case DkgAwait(stage) =>
      RosterSize(i.payload);
      if e == DkgConfirm(stage) {
        OpenIsStatused(i.payload, stage);
        ConfirmCounts(stage, i.payload, r, now);
      } else {
        FailCounts(stage, i.payload, r);
      }
  }

  // Signing keeps the roster.
  lemma SigningFrame(i: Inst, e: Event, r: Request, now: Time)
    requires Inv(i) && Takes(i, e, r) && !InCeremony(i.state)
    ensures var res := Result(i, e, r, now);
            && res.Moved? && InSigning(Landed(res).state) && !IsCeremony(e)
            && i.payload.sig.Some? && res.payload.sig.Some? && Size(res.payload) == Size(i.payload)
  {
    hide Inv, SigningReady, SigningOpen, Valid, Signed, Gaveup, Batch, S.FreshQuorum, Asked, S.AddSigns;
    Parts(i);
  }

  // The step was accepted: it changed the saved round and reported no error.
  ghost predicate Took(env: Env, saved: Option<Inst>, x: Input) {
    var out := Step(env, x.skip, saved, x.m, x.now);
    IsCeremony(x.m.event) && out.err.None? && out.saved != Base(saved, x.m)
  }

  ghost function Tally(env: Env, saved: Option<Inst>, ins: seq<Input>): nat
    decreases |ins|
  {
    if ins == [] then 0
    else (if Took(env, saved, ins[0]) then 1 else 0) + Tally(env, After(env, saved, ins[0]), ins[1..])
  }

  // `c` events have been accepted so far.
  ghost predicate Counted(saved: Option<Inst>, c: nat) {
    match saved
    case None => c == 0
    case Some(i) =>
      if Cancelled(i.state) then i.payload.sig.Some? && 1 <= c <= 5 * Size(i.payload) + 1 else c == Done(i)
  }

  lemma AcceptedCounted(env: Env, i: Inst, x: Input, c: nat)
    requires Inv(i) && 0 < x.now && !Cancelled(i.state) && c == Done(i)
    requires Inv(Resumed(i)) && Accepts(Resumed(i), x.m) && Gate(x.skip, i.payload, x.m)
    ensures var out := Step(env, x.skip, Some(i), x.m, x.now);
            && (InCeremony(i.state) ==>
                  IsCeremony(x.m.event) && out.err.None? && out.saved != Some(i) && Counted(out.saved, c + 1))
            && (!InCeremony(i.state) ==> !IsCeremony(x.m.event) && Counted(out.saved, c))
  {
    hide Inv, Step, Gate, Result, Takes, Decode, Undecided, Waiting, Before;
    StepSays(env, x.skip, i, x.m, x.now);
    var j, e, r := Resumed(i), x.m.event, Decode(x.m).value;
    if InCeremony(i.state) {
      ResultCounts(j, e, r, x.now);
      CeremonyTargets(j, e, r, x.now);
    } else {
      SigningFrame(j, e, r, x.now);
    }
  }

  lemma CeremonyTargets(i: Inst, e: Event, r: Request, now: Time)
    requires Inv(i) && Takes(i, e, r) && InCeremony(i.state)
    ensures Result(i, e, r, now).Moved? ==> Result(i, e, r, now).state != SigningCollected
  {
    hide Inv, CanReply, TooLate, CanConfirm, CanFail, Valid, Propose, Respond, ConfirmOutcome, Fail;
  }

  lemma StepCounted(env: Env, saved: Option<Inst>, x: Input, c: nat)
    requires SavedInv(saved) && 0 < x.now && Counted(saved, c)
    ensures Counted(After(env, saved, x), c + if Took(env, saved, x) then 1 else 0)
  {
    hide Inv, Step, Gate, Accepts, Result, TrimSpace, Undecided, Waiting, Before;
    StepOnBase(env, saved, x);
    var base := Base(saved, x.m);
    if base.Some? {
      ResumedKeeps(base.value);
      if saved.None? {
        StepCreates(env, x.skip, x.m, x.now);
      }
      if !Cancelled(base.value.state) && Gate(x.skip, base.value.payload, x.m) && Accepts(Resumed(base.value), x.m) {
        AcceptedCounted(env, base.value, x, c);
      }
    }
  }

  lemma {:induction false} RunCounted(env: Env, saved: Option<Inst>, ins: seq<Input>, c: nat)
    requires SavedInv(saved) && Clocked(ins) && Counted(saved, c)
    ensures Counted(RoundRun(env, saved, ins), c + Tally(env, saved, ins))
    decreases |ins|
  {
    hide Step, SavedInv, Counted, Took, After;
    if ins != [] {
      StepCounted(env, saved, ins[0], c);
      AfterKeeps(env, saved, ins[0]);
      RunCounted(env, After(env, saved, ins[0]), ins[1..], c + if Took(env, saved, ins[0]) then 1 else 0);
    }
  }

  // In a run of steps a ceremony of N participants accepts at most 5N + 1 events, and one that reached
  // signing has accepted exactly that many.
  lemma CeremonyLength(env: Env, ins: seq<Input>)
    requires Clocked(ins) && RoundRun(env, None, ins).Some?
    requires RoundRun(env, None, ins).value.state != GlobalIdle
    ensures var i, c := RoundRun(env, None, ins).value, Tally(env, None, ins);
            && i.payload.sig.Some?
            && 1 <= c <= 5 * Size(i.payload) + 1
            && (InSigning(i.state) ==> c == 5 * Size(i.payload) + 1)
  {
    hide RoundRun, Tally, Inv, Done;
    RunCounted(env, None, ins, 0);
    RoundRunKeeps(env, None, ins);
    DoneBounds(RoundRun(env, None, ins).value);
  }

  lemma DoneBounds(i: Inst)
    requires Inv(i) && i.state != GlobalIdle
    ensures i.payload.sig.Some?
    ensures !Cancelled(i.state) ==> 1 <= Done(i) <= 5 * Size(i.payload) + 1
    ensures InSigning(i.state) ==> Done(i) == 5 * Size(i.payload) + 1 && !Cancelled(i.state)
  {
    hide SigningReady, StageOpen, SameRoster, Waiting, Undecided, Inv, ProposalOpen;
    Parts(i);
    SigThere(i);
    if i.state == AwaitParticipants {
      UndecidedBound(i.payload);
    } else if i.state.DkgAwait? {
      RosterSize(i.payload);
      WaitingBound(i.payload.dkg.value.quorum, i.state.stage);
    }
  }

  lemma SigThere(i: Inst)
    requires Inv(i) && i.state != GlobalIdle
    ensures i.payload.sig.Some?
  {
    hide StageOpen, ProposalOpen, SigningOpen, AnyDkgError;
  }
}
