/** Runs in which signing fails: a restart by a repeated or unsigned message, and a batch that is stuck. */
module SigningExamples {
  import opened Names
  import opened Payloads
  import opened NodeStep
  import opened RoundInvariant
  import opened Preservation
  import opened Steps
  import opened Runs
  import opened HonestRun
  import opened NodeThreshold
  import opened Reachable
  import OrderExample
  import Progress
  import Replay
  import Safety
  import Threshold
  import S = SigningActions

  // ---------------------------------------------------------------- a ceremony of two

  function Plan2(): Plan {
    Plan("dkg", ProposalRequest([OrderExample.Someone('a'), OrderExample.Someone('b')], 2, 1), [1], 1)
  }

  lemma Plan2Ok()
    ensures PlanOk(Plan2()) && N(Plan2()) == 2 && Plan2().open == 1
  {
    var ps := Plan2().init.participants;
    assert ps[0].username[0] == 'a' && ps[1].username[0] == 'b';
    assert forall i | 0 <= i < 2 :: ValidEntry(ps[i]);
    assert TrimSpace("dkg") == "dkg";
  }

  // A message of a participant, signed with its key.
  ghost function From(plan: Plan, i: int, e: Event, r: Request): Input
    requires plan.init.ProposalRequest? && 0 <= i < N(plan)
  {
    Input(Message("", plan.round, 0, e, r, {plan.init.participants[i].pubKey}, Name(plan, i), ""), 1, false)
  }

  lemma FromPasses(plan: Plan, p: Payload, i: int, e: Event, r: Request)
    requires plan.init.ProposalRequest? && Keyed(plan, p) && 0 <= i < N(plan)
    requires e != SignatureReconstructed && e != SignatureReconstructionFailed
    ensures Gate(false, p, From(plan, i, e, r).m)
  {
    hide Range;
  }

  const START := SigningStartRequest("batch", 0, [Task("m", "file", [1], 0, 0)], 1)

  function Sign(i: int): Request {
    PartialSignsRequest("batch", i, [SignEntry("m", [1])], 1)
  }

  const FAILURE := SigningErrorRequest(0, Some("no"), 1)

  // ---------------------------------------------------------------- the batch begins

  // A round of two that is ready to sign.
  ghost predicate ReadyOfTwo(plan: Plan, i: Inst)
    requires plan.init.ProposalRequest?
  {
    Inv(i) && i.state == SigningIdle && Keyed(plan, i.payload) && N(plan) == 2
  }

  lemma ReachesReady(env: Env)
    ensures PlanOk(Plan2()) && Clocked(To(Plan2(), 5, 0, 1))
    ensures var i := RoundRun(env, None, To(Plan2(), 5, 0, 1)); i.Some? && ReadyOfTwo(Plan2(), i.value)
  {
    hide Plan2, PlanOk, RoundRun, To, Inv, Keyed;
    Plan2Ok();
    PlanParts(Plan2());
    StagesAreReached(env, Plan2(), 5, 0);
  }

  lemma ReadySizesOfTwo(plan: Plan, i: Inst)
    requires plan.init.ProposalRequest? && ReadyOfTwo(plan, i)
    ensures i.payload.sig.Some? && i.payload.dkg.Some? && i.payload.signing.Some? && SigningReady(i.payload)
    ensures Size(i.payload) == 2 && i.payload.threshold == 2 && i.payload.dkg.value.quorum.Keys == Range(2)
  {
    hide Inv, Range, Finished;
    Parts(i);
    var q := i.payload.sig.value.quorum;
    assert |q| == |q.Keys| == |Range(2)|;
  }

  // The batch after its start: nobody has replied yet.
  ghost predicate Open2(plan: Plan, i: Inst)
    requires plan.init.ProposalRequest?
  {
    && Inv(i) && i.state == SigningAwait && N(plan) == 2 && Keyed(plan, i.payload)
    && i.payload.sig.Some? && i.payload.dkg.Some? && i.payload.signing.Some?
    && Size(i.payload) == 2 && i.payload.threshold == 2
    && i.payload.signing.value.quorum.Keys == Range(2) && Signed(i.payload) == 0 && Gaveup(i.payload) == 0
    && forall k | 0 <= k < 2 :: i.payload.signing.value.quorum[k].status == SigningAwaitSigns
  }

  lemma StartOpens(env: Env, plan: Plan, i: Inst)
    requires plan.init.ProposalRequest? && ReadyOfTwo(plan, i) && env.tasksExpand(START.tasks)
    ensures Starts(env, i, From(plan, 0, SigningStart, START))
    ensures var n := After(env, Some(i), From(plan, 0, SigningStart, START)); n.Some? && Open2(plan, n.value)
  {
    hide After, Inv, SigningReady, SigningOpen, Keyed, Gate, Range, Signed, Gaveup;
    var x := From(plan, 0, SigningStart, START);
    FromPasses(plan, i.payload, 0, SigningStart, START);
    ReadySizesOfTwo(plan, i);
    StartBegins(env, i, x);
    StartedKeeps(i.payload, START);
    BatchInv(Started(i.payload, START));
    KeyedFrame(plan, i.payload, Started(i.payload, START));
  }

  lemma KeyedFrame(plan: Plan, p: Payload, p1: Payload)
    requires plan.init.ProposalRequest? && Keyed(plan, p) && p1.pubKeys == p.pubKeys && p1.sig.Some?
    requires p1.sig.value.quorum.Keys == p.sig.value.quorum.Keys
    ensures Keyed(plan, p1)
  {
    hide Range;
  }

  // ---------------------------------------------------------------- one failure cancels it

  // A participant that has not replied may.
  lemma MayReplyNow(plan: Plan, i: Inst, k: int, e: Event, r: Request)
    requires plan.init.ProposalRequest? && Keyed(plan, i.payload) && 0 <= k < N(plan)
    requires i.payload.sig.Some? && i.payload.signing.Some? && k in i.payload.signing.value.quorum
    requires i.payload.signing.value.quorum[k].status == SigningAwaitSigns
    requires (e == PartialSign && r == Sign(k)) || (e == PartialSignError && r == FAILURE && k == 0)
    ensures Answers(i, From(plan, k, e, r)) && Decode(From(plan, k, e, r).m) == Some(r)
  {
    hide Keyed, Gate;
    FromPasses(plan, i.payload, k, e, r);
  }

  lemma ReplyFrame2(i: Inst, x: Input)
    requires Answers(i, x)
    ensures With(i, x).pubKeys == i.payload.pubKeys && With(i, x).sig.Some?
    ensures With(i, x).sig.value.quorum == i.payload.sig.value.quorum
  {
    hide Decode, CanSign, Gate, Signer;
  }

  lemma FailureCancels(env: Env, plan: Plan, i: Inst)
    requires plan.init.ProposalRequest? && Open2(plan, i)
    ensures var n := After(env, Some(i), From(plan, 0, PartialSignError, FAILURE));
            n.Some? && n.value.state == SigningCanceledByError && Keyed(plan, n.value.payload)
  {
    hide Step, Inv, Keyed, Answers, With, Range, Signed, Gaveup, Decode, Recovery, Closed;
    var x := From(plan, 0, PartialSignError, FAILURE);
    assert 0 in Range(2);
    MayReplyNow(plan, i, 0, PartialSignError, FAILURE);
    BatchStep(env, i, x);
    ReplyFrame2(i, x);
    KeyedFrame(plan, i.payload, With(i, x));
  }

  // ---------------------------------------------------------------- a failed signing is restarted by old messages

  // The inputs that lead a node of two to a failed signing.
  ghost function ToFailure(): seq<Input> {
    Plan2Ok();
    To(Plan2(), 5, 0, 1) + [From(Plan2(), 0, SigningStart, START)] + [From(Plan2(), 0, PartialSignError, FAILURE)]
  }

  lemma FailureIsReached(env: Env)
    requires env.tasksExpand(START.tasks)
    ensures Clocked(ToFailure()) && PlanOk(Plan2())
    ensures var i := RoundRun(env, None, ToFailure());
            i.Some? && i.value.state == SigningCanceledByError && Keyed(Plan2(), i.value.payload)
  {
    hide Plan2, PlanOk, RoundRun, To, Inv, Keyed, After, ReadyOfTwo, Open2, START, FAILURE;
    Plan2Ok();
    PlanParts(Plan2());
    ReachesReady(env);
    var first := To(Plan2(), 5, 0, 1);
    var start, fail := From(Plan2(), 0, SigningStart, START), From(Plan2(), 0, PartialSignError, FAILURE);
    var i := RoundRun(env, None, first).value;
    StartOpens(env, Plan2(), i);
    RunSnoc(env, None, first, start);
    FailureCancels(env, Plan2(), After(env, Some(i), start).value);
    RunSnoc(env, None, first + [start], fail);
  }

  // A second proposal, which nobody signed, restarts the signing.
  lemma UnsignedRestart(env: Env)
    requires env.tasksExpand(START.tasks)
    ensures var i, x := RoundRun(env, None, ToFailure()), Input(InitMessage(Plan2()), 1, false);
            && Clocked(ToFailure()) && i.Some? && i.value.state == SigningCanceledByError
            && !Safety.SignedFor(i.value.payload, x.m)
            && After(env, i, x) == Some(Inst(SigningIdle, i.value.payload)) && After(env, i, x) != i
  {
    hide Plan2, PlanOk, RoundRun, ToFailure, Keyed, After, START;
    FailureIsReached(env);
    PlanParts(Plan2());
    var x := Input(InitMessage(Plan2()), 1, false);
    Safety.OnlySignedMessages(env, ToFailure(), x);
  }

  // ---------------------------------------------------------------- a message accepted before restarts it, too

  lemma {:induction false} ReadsBegin(plan: Plan, log: seq<Post>, me: int, now: Time)
    requires plan.init.ProposalRequest? && Orderly(plan, log) && 0 <= me < N(plan) && log != []
    requires Formed(plan, log[0])
    ensures var ins := Reads(plan, log, me, now);
            && |ins| == |log| + 1 && ins[0] == Input(InitMessage(plan), now, false)
            && ins[1] == Input(For(plan, log[0], me), now, false)
    decreases |log|
  {
    hide For, Due;
    if |log| > 1 {
      OrderlyPrefix(plan, log, |log| - 1);
      ReadsBegin(plan, log[..|log| - 1], me, now);
    }
  }

  lemma {:induction false} UptoBegins(plan: Plan, rank: nat, m: nat)
    requires plan.init.ProposalRequest? && 0 < N(plan) && rank < 5 && (0 < rank || 0 < m)
    ensures Upto(plan, rank, m) != [] && Upto(plan, rank, m)[0] == Does(plan, 0, 0)
    decreases rank, m
  {
    hide Does;
    if m > 0 {
      if 0 < rank || 1 < m {
        UptoBegins(plan, rank, m - 1);
      }
    } else {
      UptoBegins(plan, rank - 1, N(plan));
    }
  }

  // The first approval is accepted.
  lemma ApprovalTaken(env: Env, plan: Plan, me: int)
    requires PlanOk(plan) && 0 <= me < N(plan) && Formed(plan, Does(plan, 0, 0))
    ensures var before, x :=
              [Input(InitMessage(plan), plan.open, false)], Input(For(plan, Does(plan, 0, 0), me), plan.open, false);
            Progress.Took(env, RoundRun(env, None, before), x)
  {
    hide PlanOk, Step, Follows, For, Does, HonestRun.Advance, RoundRun;
    PlanParts(plan);
    SomeParticipants(plan);
    UptoIs(plan, 0, 0);
    ReadsFollow(env, plan, [], me, plan.open);
    DoesOk(plan, 0, 0);
    SenderIs(plan, 0, 0);
    assert Upto(plan, 0, 0) == [];
    var b := Does(plan, 0, 0);
    var i := RoundRun(env, None, [Input(InitMessage(plan), plan.open, false)]).value;
    ReadApproval(env, plan, i, View(0, {}), b, me, plan.open);
    AdvanceIs(N(plan), View(0, {}), b);
    OneMoreDone(N(plan), 1);
    ViewsDiffer(plan, i, Step(env, false, Some(i), For(plan, b, me), plan.open).saved.value);
    ApprovalEvent(plan, b, me);
  }

  lemma ApprovalEvent(plan: Plan, b: Post, me: int)
    requires plan.init.ProposalRequest? && Formed(plan, b) && 0 <= me < N(plan) && b.duty == Approval
    ensures For(plan, b, me).event == ConfirmProposal
  {
  }

  lemma ViewsDiffer(plan: Plan, i: Inst, j: Inst)
    requires plan.init.ProposalRequest? && Follows(plan, i, View(0, {}))
    requires Follows(plan, j, View(0, {0})) && 0 < N(plan)
    ensures i != j
  {
    hide Inv, Keyed, Range;
    assert 0 in Range(N(plan)) - {} && 0 !in Range(N(plan)) - {0};
  }

  lemma FailureBegins()
    ensures PlanOk(Plan2()) && Formed(Plan2(), Does(Plan2(), 0, 0))
    ensures var x := Input(For(Plan2(), Does(Plan2(), 0, 0), 0), 1, false);
            2 <= |ToFailure()| && ToFailure()[..2] == [Input(InitMessage(Plan2()), 1, false)] + [x]
  {
    hide Plan2, PlanOk, Upto, Reads, For, Does, Orderly, START, FAILURE;
    Plan2Ok();
    PlanParts(Plan2());
    var plan := Plan2();
    UptoIs(plan, 4, N(plan));
    UptoBegins(plan, 4, N(plan));
    DoesOk(plan, 0, 0);
    ReadsBegin(plan, Upto(plan, 4, N(plan)), 0, 1);
  }

  // An approval that was accepted at the beginning comes again and restarts the failed signing.
  lemma ReplayRestarts(env: Env) returns (before: seq<Input>, x: Input, between: seq<Input>)
    requires env.tasksExpand(START.tasks)
    ensures Clocked(before) && Clocked(between) && 0 < x.now && !x.skip
    ensures Progress.Took(env, RoundRun(env, None, before), x)
    ensures var saved := RoundRun(env, After(env, RoundRun(env, None, before), x), between);
            && saved.Some? && saved.value.state == SigningCanceledByError
            && After(env, saved, x) == Some(Inst(SigningIdle, saved.value.payload)) && After(env, saved, x) != saved
  {
    hide Plan2, PlanOk, RoundRun, ToFailure, Keyed, After, START, For, Does, Progress.Took, Gate, Formed, Proper;
    FailureBegins();
    Plan2Ok();
    PlanParts(Plan2());
    var plan, all := Plan2(), ToFailure();
    before, x, between :=
      [Input(InitMessage(plan), 1, false)], Input(For(plan, Does(plan, 0, 0), 0), 1, false), all[2..];
    FailureIsReached(env);
    ApprovalTaken(env, plan, 0);
    assert all == (before + [x]) + between;
    Safety.RunSplits(env, None, before + [x], between);
    RunSnoc(env, None, before, x);
    var saved := RoundRun(env, None, all);
    DoesOk(plan, 0, 0);
    Trusted(plan, saved.value.payload, Does(plan, 0, 0), 0);
    Replay.ReplayIsHarmless(env, before, x, between, x);
  }

  // ---------------------------------------------------------------- a batch that never ends

  // What the first participant signs.
  const SIGNS: map<string, Bytes> := map["m" := [1]]

  lemma SignStays(env: Env, plan: Plan, i: Inst, x: Input)
    requires plan.init.ProposalRequest? && Open2(plan, i) && x == From(plan, 0, PartialSign, Sign(0))
    ensures Answers(i, x) && BatchEffect(env, i, x, Step(env, false, Some(i), x.m, 1))
    ensures After(env, Some(i), x) == Some(Inst(SigningAwait, With(i, x)))
  {
    hide Step, Inv, Keyed, Answers, With, Range, Signed, Gaveup, Decode, Recovery, Closed;
    assert 0 in Range(2);
    MayReplyNow(plan, i, 0, PartialSign, Sign(0));
    BatchStep(env, i, x);
  }

  // After the first signature the batch of two lacks one, which the other participant may give.
  ghost predicate OneShort(env: Env, plan: Plan, j: Inst)
    requires plan.init.ProposalRequest? && N(plan) == 2
  {
    && j.payload.signing.Some? && 0 in j.payload.signing.value.quorum
    && j.payload.signing.value.quorum[0].status == SignsConfirmed
    && j.state == SigningAwait && Completes(j, From(plan, 1, PartialSign, Sign(1)))
    && Hopeless(env, j) && Inv(j)
  }

  lemma FirstSignature(env: Env, plan: Plan, i: Inst)
    requires plan.init.ProposalRequest? && Open2(plan, i) && N(plan) == 2 && Refuses(env, 0, SIGNS)
    ensures var n := After(env, Some(i), From(plan, 0, PartialSign, Sign(0)));
            n.Some? && OneShort(env, plan, n.value)
  {
    hide After, Inv, Keyed, Range, Signed, Gaveup, Recovery, Closed, Gate;
    var x := From(plan, 0, PartialSign, Sign(0));
    SignStays(env, plan, i, x);
    AfterKeeps(env, Some(i), x);
    MayReplyNow(plan, i, 0, PartialSign, Sign(0));
    var j := Inst(SigningAwait, With(i, x));
    SignedOnce(i, x);
    ReplyFrame2(i, x);
    StoredFrame(i, x);
    KeyedFrame(plan, i.payload, With(i, x));
    assert 0 in Range(2) && 1 in Range(2);
    Threshold.AwaitParts(i);
    OtherWaits(i, x);
    MayReplyNow(plan, j, 1, PartialSign, Sign(1));
    BadSignatureSticks(env, j, 0);
  }

  lemma SignedOnce(i: Inst, x: Input)
    requires Answers(i, x) && x.m.event == PartialSign
    ensures Signed(With(i, x)) == Signed(i.payload) + 1
  {
    hide Decode, Gate, Signed, CanSign;
    SignCounts(x.m.event, i.payload, Decode(x.m).value);
  }

  lemma OtherWaits(i: Inst, x: Input)
    requires Answers(i, x) && Decode(x.m) == Some(Sign(0)) && x.m.event == PartialSign
    requires 0 in i.payload.signing.value.quorum && 1 in i.payload.signing.value.quorum
    requires i.payload.signing.value.quorum[0].partialSigns == map[]
    ensures 0 in With(i, x).signing.value.quorum && 1 in With(i, x).signing.value.quorum
    ensures With(i, x).signing.value.quorum[1] == i.payload.signing.value.quorum[1]
    ensures With(i, x).signing.value.quorum[0].status == SignsConfirmed
    ensures With(i, x).signing.value.quorum[0].partialSigns == SIGNS
  {
    hide Decode, Gate, S.AddSigns;
    SignsAdded();
  }

  lemma SignsAdded()
    ensures S.AddSigns(map[], Sign(0).signs) == SIGNS
  {
    var signs := Sign(0).signs;
    assert signs[1..] == [] && signs[0] == SignEntry("m", [1]);
  }

  // Let recovery refuse the first participant's signatures. There is a run in which both participants
  // of a batch sign, the second reply is dropped, and the round is still waiting - for good, whatever
  // but a failure report comes.
  lemma StuckRun(env: Env, more: seq<Input>) returns (ins: seq<Input>, last: Input)
    requires env.tasksExpand(START.tasks) && Refuses(env, 0, SIGNS)
    requires Clocked(more) && forall k | 0 <= k < |more| :: more[k].m.event != PartialSignError
    ensures Clocked(ins) && 0 < last.now && RoundRun(env, None, ins).Some?
    ensures var i := RoundRun(env, None, ins);
            && OneShort(env, Plan2(), i.value) && last == From(Plan2(), 1, PartialSign, Sign(1))
            && RoundRun(env, i, [last] + more) == i
  {
    hide Plan2, PlanOk, RoundRun, To, Inv, After, ReadyOfTwo, Open2, START, OneShort, Sign;
    var plan := Plan2();
    Plan2Ok();
    PlanParts(plan);
    ReachesReady(env);
    var first, start, sign :=
      To(plan, 5, 0, 1), From(plan, 0, SigningStart, START), From(plan, 0, PartialSign, Sign(0));
    var i := RoundRun(env, None, first).value;
    StartOpens(env, plan, i);
    RunSnoc(env, None, first, start);
    var b := After(env, Some(i), start).value;
    OpenHasTwo(plan, b);
    FirstSignature(env, plan, b);
    RunSnoc(env, None, first + [start], sign);
    ins, last := first + [start] + [sign], From(plan, 1, PartialSign, Sign(1));
    var j := RoundRun(env, None, ins).value;
    ShortParts(env, plan, j);
    StuckBatch(env, j, [last] + more);
  }

  lemma OpenHasTwo(plan: Plan, i: Inst)
    requires plan.init.ProposalRequest? && Open2(plan, i)
    ensures N(plan) == 2
  {
    hide Inv, Keyed, Signed, Gaveup;
  }

  lemma ShortParts(env: Env, plan: Plan, j: Inst)
    requires plan.init.ProposalRequest? && N(plan) == 2 && OneShort(env, plan, j)
    ensures Inv(j) && j.state == SigningAwait && Hopeless(env, j)
  {
    hide Inv, Hopeless, Completes;
  }
}
