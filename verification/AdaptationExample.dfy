/** A log of two rounds: a participant that dealt in an earlier round gets no self-confirmation in the
    later one, and its node never gets past the deals. */
module AdaptationExample {
  import opened Names
  import opened Payloads
  import opened NodeStep
  import opened Preservation
  import opened Runs
  import opened Mailbox
  import opened Adaptation
  import opened HonestRun
  import opened Reachable
  import opened AdaptedReplay
  import RoundInvariant
  import SigningExamples

  // ---------------------------------------------------------------- the adapted log

  ghost function Adapted(ms: seq<Message>, ids: nat -> string, k: nat): seq<Message>
    requires k <= |ms| && Adaptable(ms)
  {
    if k == 0 then []
    else
      var out, m := Adapted(ms, ids, k - 1), ms[k - 1];
      var mid := if FirstDeal(ms, k - 1) then out + [SelfConfirm(m, ids(k - 1)).(offset := |out|)] else out;
      mid + [m.(offset := |mid|)]
  }

  lemma {:induction false} AdaptedAdapts(ms: seq<Message>, ids: nat -> string, k: nat)
    requires k <= |ms| && Adaptable(ms)
    ensures Adapts(ms, ids, k, Adapted(ms, ids, k))
  {
    hide Adapts, FirstDeal;
    if k == 0 {
      AdaptsNothing(ms, ids);
    } else {
      AdaptedAdapts(ms, ids, k - 1);
      AdaptsMore(ms, ids, k - 1, Adapted(ms, ids, k - 1));
    }
  }

  // ---------------------------------------------------------------- what a node without a self-confirmation replays

  function Theirs(ms: seq<Message>, name: string, round: string): seq<Message> {
    if ms == [] then []
    else
      var n := |ms| - 1;
      Theirs(ms[..n], name, round) + if Addressed(ms[n], name) && ms[n].round == round then [ms[n]] else []
  }

  lemma {:induction false} ReplayConcat(a: seq<Message>, b: seq<Message>, name: string, round: string,
                                        clock: Message -> Time)
    requires forall k | 0 <= k < |a| :: a[k].event != SigningStart
    ensures ReplayInputs(a + b, name, round, clock)
            == ReplayInputs(a, name, round, clock) + ReplayInputs(b, name, round, clock)
    decreases |a|
  {
    hide ReplayInputs, Addressed;
    if a == [] {
      assert a + b == b;
      NothingReplayed(a, name, round, clock);
    } else {
      assert (a + b)[0] == a[0] && (a + b)[1..] == a[1..] + b;
      ReplayCons(a + b, name, round, clock);
      ReplayCons(a, name, round, clock);
      ReplayConcat(a[1..], b, name, round, clock);
    }
  }

  lemma ReplayOne(m: Message, name: string, round: string, clock: Message -> Time)
    requires m.event != SigningStart
    ensures ReplayInputs([m], name, round, clock)
            == if Addressed(m, name) && m.round == round then [Input(m, clock(m), true)] else []
  {
    hide ReplayInputs, Addressed;
    ReplayCons([m], name, round, clock);
    assert [m][1..] == [];
    NothingReplayed([], name, round, clock);
  }

  lemma {:induction false} NothingStarts(ms: seq<Message>, ids: nat -> string, k: nat)
    requires k <= |ms| && Adaptable(ms) && forall j | 0 <= j < |ms| :: ms[j].event != SigningStart
    ensures forall j | 0 <= j < |Adapted(ms, ids, k)| :: Adapted(ms, ids, k)[j].event != SigningStart
    decreases k
  {
    hide FirstDeal;
    if k > 0 {
      NothingStarts(ms, ids, k - 1);
    }
  }

  // A self-confirmation made for another round or another node is not replayed.
  lemma SelfNotReplayed(ms: seq<Message>, k: nat, own: Message, name: string, round: string, clock: Message -> Time)
    requires FirstDeal(ms, k) && k < |ms| && !DealsHereFirst(ms, name, round) && ms[k].sender != ""
    requires own.round == ms[k].round && own.recipient == ms[k].sender && own.event != SigningStart
    ensures ReplayInputs([own], name, round, clock) == []
  {
    hide ReplayInputs, FirstDeal;
    ReplayOne(own, name, round, clock);
  }

  lemma ReplayNext(ms: seq<Message>, ids: nat -> string, k: nat, name: string, round: string, clock: Message -> Time)
    requires k < |ms| && Adaptable(ms) && !DealsHereFirst(ms, name, round)
    requires forall j | 0 <= j < |ms| :: ms[j].event != SigningStart && (IsDealEvent(ms[j]) ==> ms[j].sender != "")
    ensures var m := ms[k].(offset := |Adapted(ms, ids, k + 1)| - 1);
            ReplayInputs(Adapted(ms, ids, k + 1), name, round, clock)
            == ReplayInputs(Adapted(ms, ids, k), name, round, clock)
               + if Addressed(m, name) && m.round == round then [Input(m, clock(m), true)] else []
  {
    hide ReplayInputs, Adaptable, FirstDeal, DealsHereFirst, Addressed;
    NothingStarts(ms, ids, k);
    var out, mid, m := Adapted(ms, ids, k), Adapted(ms, ids, k), ms[k];
    if FirstDeal(ms, k) {
      FirstReadable(ms, k);
      var own := SelfConfirm(m, ids(k)).(offset := |out|);
      mid := out + [own];
      ReplayConcat(out, [own], name, round, clock);
      SelfNotReplayed(ms, k, own, name, round, clock);
    }
    ReplayConcat(mid, [m.(offset := |mid|)], name, round, clock);
    ReplayOne(m.(offset := |mid|), name, round, clock);
  }

  // Nothing but the original messages, unless the node's own first deal is of the round.
  lemma {:induction false} ReplayCopies(ms: seq<Message>, ids: nat -> string, k: nat, name: string, round: string)
    requires k <= |ms| && Adaptable(ms) && !DealsHereFirst(ms, name, round)
    requires forall j | 0 <= j < |ms| :: ms[j].event != SigningStart && (IsDealEvent(ms[j]) ==> ms[j].sender != "")
    ensures Copies(ReplayInputs(Adapted(ms, ids, k), name, round, _ => 1), Theirs(ms[..k], name, round))
    decreases k
  {
    hide ReplayInputs, FirstDeal, Adaptable, DealsHereFirst, Adapted;
    var clock: Message -> Time := _ => 1;
    if k == 0 {
      AdaptedNothing(ms, ids);
      NothingReplayed([], name, round, clock);
    } else {
      ReplayCopies(ms, ids, k - 1, name, round);
      ReplayNext(ms, ids, k - 1, name, round, clock);
      TheirsNext(ms, k - 1, name, round);
    }
  }

  lemma AdaptedNothing(ms: seq<Message>, ids: nat -> string)
    requires Adaptable(ms)
    ensures Adapted(ms, ids, 0) == []
  {
  }

  lemma FirstReadable(ms: seq<Message>, k: nat)
    requires k < |ms| && Adaptable(ms) && FirstDeal(ms, k)
    ensures IsDeal(ms[k]) && IsDealEvent(ms[k])
  {
    hide FirstDeal;
  }

  // ---------------------------------------------------------------- the log

  ghost function Said(plan: Plan, rank: nat, i: int, to: int): Message
    requires PlanOk(plan) && rank < 5 && 0 <= i < N(plan) && 0 <= to < N(plan)
  {
    DoesOk(plan, rank, i);
    For(plan, Does(plan, rank, i), to)
  }

  ghost function EarlierDeal(plan: Plan): Message
    requires plan.init.ProposalRequest? && N(plan) == 2
  {
    Message("", "earlier", 0, DkgConfirm(Deals), ConfirmationRequest(Deals, 0, [1], [], 1), {}, Name(plan, 0),
            Name(plan, 1))
  }

  // The first participant deals in an earlier round, which goes no further. Then the two hold a
  // ceremony: proposal, approvals and commits, and each deals to the other.
  ghost function OldLog(plan: Plan): seq<Message>
    requires PlanOk(plan) && N(plan) == 2
  {
    [ EarlierDeal(plan), InitMessage(plan),
      Said(plan, 0, 0, 0), Said(plan, 0, 1, 0), Said(plan, 1, 0, 0), Said(plan, 1, 1, 0),
      Said(plan, 2, 0, 1), Said(plan, 2, 1, 0) ]
  }

  ghost function Names2(plan: Plan): seq<string>
    requires PlanOk(plan) && N(plan) == 2
  {
    [Name(plan, 0), Name(plan, 1)]
  }

  lemma SaidIs(plan: Plan, rank: nat, i: int, to: int)
    requires PlanOk(plan) && rank < 5 && 0 <= i < N(plan) && 0 <= to < N(plan)
    ensures var m := Said(plan, rank, i, to);
            && m.round == plan.round && m.sender == Name(plan, i) && m.offset == 0
            && m.event == (if rank == 0 then ConfirmProposal else DkgConfirm(DutyAt(rank).stage))
            && m.recipient == (if rank == 2 then Name(plan, to) else "")
            && (rank != 0 ==> m.data.ConfirmationRequest? && m.data.stage == DutyAt(rank).stage && m.data.pid == i)
  {
    hide PlanOk, Valid, Formed, Proper;
    DoesOk(plan, rank, i);
  }

  lemma NamesDiffer(plan: Plan)
    requires PlanOk(plan) && N(plan) == 2
    ensures DistinctNames(Names2(plan)) && Name(plan, 0) != "" && Name(plan, 1) != ""
  {
    var ps := plan.init.participants;
    assert ValidEntry(ps[0]) && ValidEntry(ps[1]);
  }

  // What the messages of the log are.
  lemma LogIs(plan: Plan)
    requires PlanOk(plan) && N(plan) == 2 && plan.round != "earlier"
    ensures var ms, names := OldLog(plan), Names2(plan);
            && DealFrom(ms[6], names, plan.round, 0, 1) && DealFrom(ms[7], names, plan.round, 1, 0)
            && IsDeal(ms[0]) && ms[0].round != plan.round && ms[0].sender == names[0] && ms[0].recipient == names[1]
            && (forall k | 1 <= k < 8 :: ms[k].round == plan.round && ms[k].event != SigningStart)
            && (forall k | 1 <= k < 6 :: !IsDealEvent(ms[k]) && ms[k].recipient == "")
  {
    hide PlanOk, Said;
    NamesDiffer(plan);
    SaidIs(plan, 0, 0, 0);
    SaidIs(plan, 0, 1, 0);
    SaidIs(plan, 1, 0, 0);
    SaidIs(plan, 1, 1, 0);
    SaidIs(plan, 2, 0, 1);
    SaidIs(plan, 2, 1, 0);
  }

  lemma LogIsFull(plan: Plan)
    requires PlanOk(plan) && N(plan) == 2 && plan.round != "earlier"
    ensures FullDealing(OldLog(plan), Names2(plan), plan.round) && Adaptable(OldLog(plan))
    ensures |OldLog(plan)| == 8
    ensures forall k | 0 <= k < 8 ::
              var m := OldLog(plan)[k]; m.event != SigningStart && (IsDealEvent(m) ==> m.sender != "")
  {
    LogIs(plan);
    NamesDiffer(plan);
    hide PlanOk, OldLog, Names2;
    FullOfTwo(OldLog(plan), Names2(plan), plan.round);
  }

  lemma FullOfTwo(ms: seq<Message>, names: seq<string>, round: string)
    requires |ms| == 8 && |names| == 2 && DistinctNames(names)
    requires DealFrom(ms[6], names, round, 0, 1) && DealFrom(ms[7], names, round, 1, 0)
    requires IsDeal(ms[0]) && ms[0].round != round
    requires forall k | 1 <= k < 6 :: ms[k].event != SigningStart && !IsDealEvent(ms[k])
    ensures FullDealing(ms, names, round) && Adaptable(ms)
  {
    assert Dealt(ms, names, round, 0, 1) && Dealt(ms, names, round, 1, 0);
    assert IsDealing(ms, names, round, 6) && IsDealing(ms, names, round, 7);
    OneOfEachPair(ms, names, round);
  }

  lemma OneOfEachPair(ms: seq<Message>, names: seq<string>, round: string)
    requires |ms| == 8 && |names| == 2 && DistinctNames(names)
    requires DealFrom(ms[6], names, round, 0, 1) && DealFrom(ms[7], names, round, 1, 0)
    requires forall k | 0 <= k < 6 :: !IsDealOf(ms[k], round)
    ensures forall k, l, i, j | 0 <= k < l < |ms| && DealFrom(ms[k], names, round, i, j) ::
              !DealFrom(ms[l], names, round, i, j)
  {
  }

  // The earlier deal is its sender's first.
  lemma DealsElsewhereFirst(plan: Plan)
    requires PlanOk(plan) && N(plan) == 2 && plan.round != "earlier"
    ensures !DealsHereFirst(OldLog(plan), Name(plan, 0), plan.round)
  {
    LogIs(plan);
    hide PlanOk, OldLog;
  }

  // ---------------------------------------------------------------- the first node's replay

  // The posts behind what the first node finds.
  ghost function Log2(plan: Plan): seq<Post>
    requires plan.init.ProposalRequest?
  {
    Upto(plan, 1, 2) + [Does(plan, 2, 1)]
  }

  lemma Log2Is(plan: Plan)
    requires PlanOk(plan) && N(plan) == 2
    ensures Orderly(plan, Log2(plan)) && ViewOf(2, Log2(plan)) == View(2, {1})
    ensures Log2(plan) == [Does(plan, 0, 0), Does(plan, 0, 1), Does(plan, 1, 0), Does(plan, 1, 1), Does(plan, 2, 1)]
  {
    hide PlanOk, Orderly, ViewOf, Does, Formed, Proper, Advance;
    PlanParts(plan);
    UptoIs(plan, 1, 2);
    DoesOk(plan, 2, 1);
    SenderIs(plan, 2, 1);
    OrderlyMore(plan, Upto(plan, 1, 2), Does(plan, 2, 1));
    AdvanceIs(2, View(2, {}), Does(plan, 2, 1));
    assert 0 in Range(2) - {} && Range(2) - {} != {1};
  }

  lemma TheirsMore(ms: seq<Message>, m: Message, name: string, round: string)
    ensures Theirs(ms + [m], name, round)
            == Theirs(ms, name, round) + if Addressed(m, name) && m.round == round then [m] else []
  {
    hide Addressed;
    assert (ms + [m])[..|ms|] == ms;
  }

  lemma TheirsOfTwo(ms: seq<Message>, name: string, round: string)
    requires |ms| == 8 && ms[0].round != round && forall k | 1 <= k < 8 :: ms[k].round == round
    requires forall k | 1 <= k < 6 :: Addressed(ms[k], name)
    requires !Addressed(ms[6], name) && Addressed(ms[7], name)
    ensures Theirs(ms, name, round) == [ms[1], ms[2], ms[3], ms[4], ms[5], ms[7]]
  {
    hide Addressed, Theirs;
    TheirsNone(name, round);
    TheirsNext(ms, 0, name, round);
    assert ms[..0] == [];
    TheirsNext(ms, 1, name, round);
    TheirsNext(ms, 2, name, round);
    TheirsNext(ms, 3, name, round);
    TheirsNext(ms, 4, name, round);
    TheirsNext(ms, 5, name, round);
    TheirsNext(ms, 6, name, round);
    TheirsNext(ms, 7, name, round);
    assert ms[..8] == ms;
  }

  lemma TheirsNone(name: string, round: string)
    ensures Theirs([], name, round) == []
  {
  }

  lemma TheirsNext(ms: seq<Message>, k: nat, name: string, round: string)
    requires k < |ms|
    ensures Theirs(ms[..k + 1], name, round)
            == Theirs(ms[..k], name, round) + if Addressed(ms[k], name) && ms[k].round == round then [ms[k]] else []
  {
    hide Addressed, Theirs;
    assert ms[..k + 1] == ms[..k] + [ms[k]];
    TheirsMore(ms[..k], ms[k], name, round);
  }

  lemma TextsMore(plan: Plan, log: seq<Post>, b: Post, me: int)
    requires plan.init.ProposalRequest? && (forall k | 0 <= k < |log| :: Formed(plan, log[k])) && Formed(plan, b)
    requires 0 <= me < N(plan)
    ensures Texts(plan, log + [b], me) == Texts(plan, log, me) + [For(plan, b, me)]
  {
    hide Formed, For;
    assert (log + [b])[..|log|] == log;
  }

  lemma TextsOfTwo(plan: Plan, log: seq<Post>, me: int)
    requires plan.init.ProposalRequest? && |log| == 5 && (forall k | 0 <= k < 5 :: Formed(plan, log[k]))
    requires 0 <= me < N(plan)
    ensures Texts(plan, log, me)
            == [InitMessage(plan), For(plan, log[0], me), For(plan, log[1], me), For(plan, log[2], me),
                For(plan, log[3], me), For(plan, log[4], me)]
  {
    hide Formed, For, N;
    assert log[..0] == [] && log[..5] == log && forall k | 0 <= k < 5 :: log[..k + 1] == log[..k] + [log[k]];
    TextsMore(plan, log[..0], log[0], me);
    TextsMore(plan, log[..1], log[1], me);
    TextsMore(plan, log[..2], log[2], me);
    TextsMore(plan, log[..3], log[3], me);
    TextsMore(plan, log[..4], log[4], me);
  }

  lemma FirstNodeFinds(plan: Plan)
    requires PlanOk(plan) && N(plan) == 2 && plan.round != "earlier"
    requires forall k | 0 <= k < |Log2(plan)| :: Formed(plan, Log2(plan)[k])
    ensures Theirs(OldLog(plan), Name(plan, 0), plan.round) == Texts(plan, Log2(plan), 0)
  {
    hide PlanOk, Formed, For, Does, Theirs, Texts, Upto, Log2, DealFrom;
    PlanParts(plan);
    LogIs(plan);
    LogAddressed(plan);
    Log2Is(plan);
    TheirsOfTwo(OldLog(plan), Name(plan, 0), plan.round);
    TextsOfTwo(plan, Log2(plan), 0);
  }

  lemma LogAddressed(plan: Plan)
    requires PlanOk(plan) && N(plan) == 2 && plan.round != "earlier"
    ensures var ms := OldLog(plan);
            && (forall k | 1 <= k < 6 :: Addressed(ms[k], Name(plan, 0)))
            && !Addressed(ms[6], Name(plan, 0)) && Addressed(ms[7], Name(plan, 0))
  {
    LogIs(plan);
    NamesDiffer(plan);
    hide PlanOk, OldLog;
  }

  // Everybody dealt to everybody in this round and the log can be adapted, but at the end of its
  // replay the first node still awaits its own deal.
  lemma EarlierDealBlocks(env: Env, ids: nat -> string) returns (ms: seq<Message>, out: seq<Message>)
    ensures var plan := SigningExamples.Plan2();
            && plan.init.ProposalRequest? && |plan.init.participants| == 2 && PlanOk(plan)
            && FullDealing(ms, Names2(plan), plan.round) && Adapts(ms, ids, |ms|, out)
            && var e := RoundRun(env, None, ReplayInputs(out, Name(plan, 0), plan.round, _ => 1));
               && e.Some? && e.value.state == DkgAwait(Deals) && e.value.payload.dkg.Some?
               && Waiting(e.value.payload.dkg.value.quorum, Deals) == {0}
  {
    hide SigningExamples.Plan2, PlanOk, FullDealing, Adapts, ReplayInputs, RoundRun, OldLog, Adaptable, Formed,
         Proper, Waiting, Follows, Orderly, ViewOf, Log2, Texts, Theirs, Copies, DealsHereFirst;
    SigningExamples.Plan2Ok();
    var plan := SigningExamples.Plan2();
    RoundName();
    PlanParts(plan);
    ms := OldLog(plan);
    LogIsFull(plan);
    AdaptedAdapts(ms, ids, |ms|);
    out := Adapted(ms, ids, |ms|);
    NamesDiffer(plan);
    DealsElsewhereFirst(plan);
    ReplayCopies(ms, ids, |ms|, Name(plan, 0), plan.round);
    assert ms[..|ms|] == ms;
    Log2Is(plan);
    OrderlyFormed(plan, Log2(plan));
    FirstNodeFinds(plan);
    CopiesFollow(env, plan, Log2(plan), 0, ReplayInputs(out, Name(plan, 0), plan.round, _ => 1));
    ReadsFollow(env, plan, Log2(plan), 0, 1);
    StillWaits(plan, RoundRun(env, None, Reads(plan, Log2(plan), 0, 1)).value);
  }

  lemma RoundName()
    ensures SigningExamples.Plan2().round != "earlier"
  {
    assert |"dkg"| == 3;
  }

  lemma StillWaits(plan: Plan, i: Inst)
    requires PlanOk(plan) && N(plan) == 2 && Follows(plan, i, View(2, {1}))
    ensures i.state == DkgAwait(Deals) && i.payload.dkg.Some? && Waiting(i.payload.dkg.value.quorum, Deals) == {0}
  {
    hide PlanOk, RoundInvariant.Inv, Keyed, Waiting;
    assert Range(2) - {1} == {0};
  }
}
