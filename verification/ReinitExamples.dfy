/** What an unsigned reinitialisation can do: take a cancelled round to signing, and give a round an
    answer that nobody signed. */
module ReinitExamples {
  import opened Names
  import opened Payloads
  import opened NodeStep
  import opened RoundInvariant
  import opened Preservation
  import opened Steps
  import opened Runs
  import opened Mailbox
  import opened Delivery
  import opened Polling
  import opened ClientRounds
  import opened HonestRun
  import opened Reachable
  import AdaptedReplay
  import P = ProposalActions
  import SigningExamples

  // ---------------------------------------------------------------- a replay of an orderly log

  lemma {:induction false} AllReplayed(ms: seq<Message>, name: string, round: string)
    requires forall m | m in ms :: Addressed(m, name) && m.round == round && m.event != SigningStart
    ensures Copies(AdaptedReplay.ReplayInputs(ms, name, round, _ => 1), ms)
    decreases |ms|
  {
    hide AdaptedReplay.ReplayInputs, Addressed;
    var clock: Message -> Time := _ => 1;
    if ms == [] {
      AdaptedReplay.NothingReplayed(ms, name, round, clock);
    } else {
      assert ms[0] in ms && forall m | m in ms[1..] :: m in ms;
      AdaptedReplay.ReplayCons(ms, name, round, clock);
      AllReplayed(ms[1..], name, round);
    }
  }

  lemma {:induction false} TextsAddressed(plan: Plan, log: seq<Post>, me: int)
    requires plan.init.ProposalRequest? && (forall k | 0 <= k < |log| :: Formed(plan, log[k])) && 0 <= me < N(plan)
    ensures forall m | m in Texts(plan, log, me) ::
              Addressed(m, Name(plan, me)) && m.round == plan.round && m.event != SigningStart
    decreases |log|
  {
    hide Formed;
    if log != [] {
      TextsAddressed(plan, log[..|log| - 1], me);
    }
  }

  // All that a node of an honest ceremony read before signing.
  ghost function OldLog(plan: Plan, me: int): seq<Message>
    requires PlanOk(plan) && 0 <= me < N(plan)
  {
    UptoIs(plan, 4, N(plan));
    OrderlyFormed(plan, Upto(plan, 4, N(plan)));
    Texts(plan, Upto(plan, 4, N(plan)), me)
  }

  // Replayed, it brings the round to signing.
  lemma ReplaySigns(env: Env, plan: Plan, me: int)
    requires PlanOk(plan) && 0 <= me < N(plan) && plan.open <= 1
    ensures var i := RoundRun(env, None,
                              AdaptedReplay.ReplayInputs(OldLog(plan, me), Name(plan, me), plan.round, _ => 1));
            i.Some? && i.value.state == SigningIdle
  {
    hide PlanOk, RoundRun, Follows, Orderly, Upto, Texts, Copies, AdaptedReplay.ReplayInputs, Formed, Addressed;
    PlanParts(plan);
    var log := Upto(plan, 4, N(plan));
    UptoIs(plan, 4, N(plan));
    OrderlyFormed(plan, log);
    TextsAddressed(plan, log, me);
    AllReplayed(Texts(plan, log, me), Name(plan, me), plan.round);
    CopiesFollow(env, plan, log, me,
                 AdaptedReplay.ReplayInputs(OldLog(plan, me), Name(plan, me), plan.round, _ => 1));
    ReadsFollow(env, plan, log, me, 1);
    FollowsState(plan, RoundRun(env, None, Reads(plan, log, me, 1)).value, View(5, {}));
  }

  lemma FollowsState(plan: Plan, i: Inst, v: View)
    requires plan.init.ProposalRequest? && Follows(plan, i, v)
    ensures v.rank <= 5 && i.state == StateAt(v.rank) && i.payload.sig.Some? && Inv(i)
    ensures v.rank == 0 ==> HonestRun.Invited(plan, i.payload, v.done)
  {
    hide Inv, Keyed, HonestRun.Invited, InPart;
  }

  // ---------------------------------------------------------------- a cancelled round goes to signing

  ghost function Refusal(plan: Plan): Message
    requires plan.init.ProposalRequest? && 0 < N(plan)
  {
    SigningExamples.From(plan, 0, DeclineProposal, ReplyRequest(0, plan.init.createdAt)).m
  }

  lemma RefusalCancels(env: Env, plan: Plan, i: Inst)
    requires PlanOk(plan) && Follows(plan, i, View(0, {})) && 0 < N(plan)
    ensures var n := After(env, Some(i), Input(Refusal(plan), 1, false));
            n.Some? && Inv(n.value) && n.value.state == ProposalCanceledByParticipant
  {
    hide Step, Inv, Valid, Keyed, HonestRun.Invited, Gate, P.WithReply, PlanOk;
    PlanParts(plan);
    var x, p, r := Input(Refusal(plan), 1, false), i.payload, ReplyRequest(0, plan.init.createdAt);
    SigningExamples.FromPasses(plan, p, 0, DeclineProposal, r);
    DoesOk(plan, 0, 0);
    FirstMayReply(plan, p);
    StepSays(env, false, i, x.m, 1);
    assert i == Inst(AwaitParticipants, p);
    RespondSays(p, DeclineProposal, r);
    InTime(plan, p);
  }

  lemma FirstMayReply(plan: Plan, p: Payload)
    requires PlanOk(plan) && p.sig.Some? && HonestRun.Invited(plan, p, {}) && 0 < N(plan)
    ensures CanReply(p, ReplyRequest(0, plan.init.createdAt))
  {
    hide CanReply, HonestRun.Invited, PlanOk;
    PlanParts(plan);
    DoesOk(plan, 0, 0);
    assert 0 in Range(N(plan)) - {};
    MayReply(plan, p, {}, Does(plan, 0, 0));
  }

  lemma InTime(plan: Plan, p: Payload)
    requires plan.init.ProposalRequest? && p.sig.Some? && HonestRun.Invited(plan, p, {})
    requires CanReply(p, ReplyRequest(0, plan.init.createdAt))
    ensures !SigExpired(P.WithReply(p, 0, SigDeclined, plan.init.createdAt).sig.value)
  {
    hide CanReply, Range;
  }

  // The ceremony of two again, under another name.
  ghost function OtherPlan(): Plan {
    SigningExamples.Plan2().(round := "old")
  }

  lemma PlansOk()
    ensures var plan := SigningExamples.Plan2();
            && PlanOk(plan) && PlanOk(OtherPlan()) && N(plan) == N(OtherPlan()) == 2
            && plan.open == OtherPlan().open == 1
            && plan.round == "dkg" && OtherPlan().round == "old" && TrimSpace("dkg") == "dkg" && "dkg" != "old"
  {
    SigningExamples.Plan2Ok();
    assert TrimSpace("old") == "old" && "dkg"[0] != "old"[0];
    assert OtherPlan().init == SigningExamples.Plan2().init;
    hide Valid;
  }

  // A client of the first participant that checks signatures.
  ghost function Checking(env: Env, q: ReDkg): Setup {
    Setup(env, _ => Some(q), Name2(), _ => 1, false)
  }

  ghost function Name2(): string {
    SigningExamples.Plan2().init.participants[0].username
  }

  ghost function Reinit(round: string): Message {
    Message("", round, 0, ReinitDkg, Undecodable, {}, "", "")
  }

  // One plain message changes its round alone.
  lemma PlainHandled(c: Setup, store: Store, m: Message, round: string)
    requires m.event != ReinitDkg
    ensures Lookup(HandleEffect(c, store, m).store, round)
            == if m.round == round then After(c.env, Lookup(store, round), Input(m, c.clock(m), c.skip))
               else Lookup(store, round)
  {
    hide HandleEffect, After, FedBy, RoundRun;
    HandledRound(c, store, m, round);
    FedPlain(c, store, m, round);
  }

  // A proposal that its first participant declined, and nothing else.
  lemma DeclinedStore(c: Setup, ms: seq<Message>)
    requires PlanOk(OtherPlan()) && N(OtherPlan()) == 2
    requires OtherPlan().round == "old" && !c.skip && forall x :: c.clock(x) == 1
    requires ms == [InitMessage(OtherPlan()), Refusal(OtherPlan())]
    ensures var s := EffectOf(c, map[], ms).store;
            && "old" in s && "dkg" !in s && Inv(s["old"]) && s["old"].state == ProposalCanceledByParticipant
  {
    hide HandleEffect, PlanOk, Follows, After, Inv, EffectOf, OtherPlan;
    var plan := OtherPlan();
    var a, b := ms[0], ms[1];
    var s1 := HandleEffect(c, map[], a).store;
    EffectTwo(c, map[], a, b);
    PlanParts(plan);
    assert "dkg"[0] != "old"[0];
    PlainHandled(c, map[], a, "old");
    PlainHandled(c, map[], a, "dkg");
    PlainHandled(c, s1, b, "old");
    PlainHandled(c, s1, b, "dkg");
    FirstRead(c.env, plan);
    RefusalCancels(c.env, plan, After(c.env, None, Input(a, 1, false)).value);
  }

  lemma EffectTwo(c: Setup, store: Store, a: Message, b: Message)
    ensures EffectOf(c, store, [a, b]).store == HandleEffect(c, HandleEffect(c, store, a).store, b).store
  {
    hide HandleEffect;
    assert [a, b] == [a] + [b] && [b] == [b] + [];
    EffectOne(c, store, a, [b]);
    EffectOne(c, HandleEffect(c, store, a).store, b, []);
  }

  lemma FirstRead(env: Env, plan: Plan)
    requires PlanOk(plan) && plan.init.ProposalRequest?
    ensures var i := After(env, None, Input(InitMessage(plan), 1, false));
            i.Some? && Follows(plan, i.value, View(0, {}))
  {
    hide Step, PlanOk, Follows;
    ReadInit(env, plan, 1);
  }

  // A proposal is declined, so its round is cancelled. Then an unsigned message brings up another
  // round from an old log and saves it there: the cancelled round is ready to sign.
  lemma CancelledRevived(env: Env) returns (c: Setup, ms: seq<Message>, m: Message)
    ensures !c.skip && m.event == ReinitDkg && m.signers == {}
    ensures var s := EffectOf(c, map[], ms).store;
            var t := HandleEffect(c, s, m).store;
            && m.round in s && Cancelled(s[m.round].state)
            && m.round in t && t[m.round].state == SigningIdle
  {
    hide HandleEffect, EffectOf, PlanOk, RoundRun, Inv, OldLog, Replayed, InputsOf, OfRound, SigningExamples.Plan2,
         OtherPlan;
    PlansOk();
    var plan := SigningExamples.Plan2();
    PlanParts(plan);
    PlanParts(OtherPlan());
    var q := ReDkg("dkg", [], OldLog(plan, 0));
    c, m := Checking(env, q), Reinit("old");
    ms := [InitMessage(OtherPlan()), Refusal(OtherPlan())];
    DeclinedStore(c, ms);
    var s := EffectOf(c, map[], ms).store;
    ReplaySigns(env, plan, 0);
    assert Reborn(c, q).Loaded? && Reborn(c, q).inst.state == SigningIdle;
    CancelledHandled(c, s, m, "old");
  }

  // ---------------------------------------------------------------- an answer that nobody signed

  ghost function Forged(plan: Plan): Message
    requires PlanOk(plan) && 0 < N(plan)
  {
    DoesOk(plan, 0, 0);
    For(plan, Does(plan, 0, 0), 0).(signers := {})
  }

  lemma ForgedIs(plan: Plan)
    requires PlanOk(plan) && 0 < N(plan)
    ensures var f := Forged(plan);
            f.event == ConfirmProposal && f.round == plan.round && f.recipient == "" && f.signers == {}
  {
    hide PlanOk, Valid;
    DoesOk(plan, 0, 0);
  }

  // Unchecked, it counts as the participant's approval.
  lemma ForgedCounts(env: Env, plan: Plan, i: Inst)
    requires PlanOk(plan) && Follows(plan, i, View(0, {})) && N(plan) == 2 && plan.open <= 1
    ensures var n := After(env, Some(i), Input(Forged(plan), 1, true));
            n.Some? && Follows(plan, n.value, View(0, {0}))
  {
    hide PlanOk, Follows, For, Does, Step, HonestRun.Advance, Formed, Proper;
    PlanParts(plan);
    DoesOk(plan, 0, 0);
    SenderIs(plan, 0, 0);
    var b := Does(plan, 0, 0);
    FollowsKeyed(plan, i, View(0, {}));
    Trusted(plan, i.payload, b, 0);
    CopySteps(env, Some(i), Input(Forged(plan), 1, true), For(plan, b, 0));
    ReadApproval(env, plan, i, View(0, {}), b, 0, 1);
    AdvanceIs(2, View(0, {}), b);
    OneMoreDone(2, 1);
    assert Range(0) == {};
  }

  lemma OneReplayed(f: Message, name: string, round: string, clock: Message -> Time)
    requires f.event != SigningStart && f.recipient == "" && f.round == round
    ensures OfRound(InputsOf(Replayed([f], name), clock, true), round) == [Input(f, clock(f), true)]
  {
    assert [f][1..] == [] && [f] + [] == [f];
    var x := Input(f, clock(f), true);
    assert [x][1..] == [] && [x] + [] == [x];
  }

  // A round is proposed. Then an unsigned reinitialisation of some other round carries an unsigned
  // approval, and the first participant counts as having agreed.
  lemma AnswerForged(env: Env) returns (c: Setup, ms: seq<Message>, m: Message, round: string)
    ensures !c.skip && m.event == ReinitDkg && m.signers == {} && m.round != round && c.redkg(m).Some?
    ensures forall f | f in c.redkg(m).value.messages :: f.signers == {}
    ensures var s := EffectOf(c, map[], ms).store;
            var t := HandleEffect(c, s, m).store;
            && round in s && s[round].payload.sig.Some? && 0 in Undecided(s[round].payload)
            && round in t && t[round].payload.sig.Some? && 0 !in Undecided(t[round].payload)
  {
    hide HandleEffect, PlanOk, RoundRun, Inv, After, Follows, SigningExamples.Plan2, OtherPlan, Forged, EffectOf,
         Undecided;
    PlansOk();
    var plan := SigningExamples.Plan2();
    PlanParts(plan);
    var f := Forged(plan);
    ForgedIs(plan);
    var q := ReDkg("old", [], [f]);
    c, m, round := Checking(env, q), Reinit("old"), "dkg";
    ms := [InitMessage(plan)];
    assert ms == ms + [];
    EffectOne(c, map[], ms[0], []);
    var s := HandleEffect(c, map[], ms[0]).store;
    NoEffect(c, s, "");
    PlainHandled(c, map[], ms[0], "dkg");
    PlainHandled(c, map[], ms[0], "old");
    FirstRead(env, plan);
    var i := s["dkg"];
    HandledRound(c, s, m, "dkg");
    OneReplayed(f, c.name, "dkg", c.clock);
    RunOnce(env, Some(i), Input(f, 1, true));
    ForgedCounts(env, plan, i);
    InvitesAre(plan, i, {});
    InvitesAre(plan, After(env, Some(i), Input(f, 1, true)).value, {0});
  }

  lemma RunOnce(env: Env, saved: Option<Inst>, x: Input)
    ensures RoundRun(env, saved, [x]) == After(env, saved, x)
  {
    hide After;
    assert [x][1..] == [];
  }

  lemma InvitesAre(plan: Plan, i: Inst, done: set<int>)
    requires plan.init.ProposalRequest? && N(plan) == 2 && Follows(plan, i, View(0, done))
    ensures i.payload.sig.Some? && (0 in Undecided(i.payload) <==> 0 !in done)
  {
    hide Inv, Keyed, Undecided;
    assert 0 in Range(2);
  }
}
