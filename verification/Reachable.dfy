/** Runs that exist: a log that brings an honest node to any stage of a ceremony. */
module Reachable {
  import opened Names
  import opened Payloads
  import opened NodeStep
  import opened Runs
  import opened HonestRun
  import Ceremony
  import RoundInvariant
  import Safety

  // ---------------------------------------------------------------- reading an orderly log

  // What node `me` reads: the proposal, and its message of each post.
  ghost function Reads(plan: Plan, log: seq<Post>, me: int, now: Time): seq<Input>
    requires plan.init.ProposalRequest? && Orderly(plan, log) && 0 <= me < N(plan)
  {
    if log == [] then [Input(InitMessage(plan), now, false)]
    else
      var k := |log| - 1;
      OrderlyPrefix(plan, log, k);
      assert Due(plan, ViewOf(N(plan), log[..k]), log[k]);
      Reads(plan, log[..k], me, now) + [Input(For(plan, log[k], me), now, false)]
  }

  lemma {:induction false} ReadsClocked(plan: Plan, log: seq<Post>, me: int, now: Time)
    requires plan.init.ProposalRequest? && Orderly(plan, log) && 0 <= me < N(plan) && 0 < now
    ensures Clocked(Reads(plan, log, me, now))
    decreases |log|
  {
    hide For, Due;
    if log != [] {
      OrderlyPrefix(plan, log, |log| - 1);
      ReadsClocked(plan, log[..|log| - 1], me, now);
    }
  }

  lemma RunSnoc(env: Env, saved: Option<Inst>, ins: seq<Input>, x: Input)
    ensures RoundRun(env, saved, ins + [x]) == After(env, RoundRun(env, saved, ins), x)
  {
    hide After;
    Safety.RunSplits(env, saved, ins, [x]);
  }

  // The node follows the log, whatever the orderly log is.
  lemma {:induction false} ReadsFollow(env: Env, plan: Plan, log: seq<Post>, me: int, now: Time)
    requires PlanOk(plan) && Orderly(plan, log) && 0 <= me < N(plan) && plan.open <= now
    ensures var i := RoundRun(env, None, Reads(plan, log, me, now));
            i.Some? && Follows(plan, i.value, ViewOf(N(plan), log))
    decreases |log|
  {
    hide PlanOk, RoundRun, Follows, Due, Orderly, For, Step, Advance, ViewExact;
    PlanParts(plan);
    if log == [] {
      ReadInit(env, plan, now);
      RunSnoc(env, None, [], Input(InitMessage(plan), now, false));
      assert [] + [Input(InitMessage(plan), now, false)] == [Input(InitMessage(plan), now, false)];
      NothingRun(env);
    } else {
      var k := |log| - 1;
      var before, b := log[..k], log[k];
      OrderlyPrefix(plan, log, k);
      ReadsFollow(env, plan, before, me, now);
      LastDue(plan, log);
      ViewIsExact(plan, before);
      var v := ViewOf(N(plan), before);
      DueAt(plan, before, v, b);
      var i := RoundRun(env, None, Reads(plan, before, me, now)).value;
      RunSnoc(env, None, Reads(plan, before, me, now), Input(For(plan, b, me), now, false));
      if v.rank == 0 {
        ReadApproval(env, plan, i, v, b, me, now);
      } else {
        ReadPart(env, plan, i, v, b, me, now);
      }
    }
  }

  lemma NothingRun(env: Env)
    ensures RoundRun(env, None, []) == None
  {
  }

  lemma DueAt(plan: Plan, log: seq<Post>, v: View, b: Post)
    requires plan.init.ProposalRequest? && ViewExact(plan, log, v) && Due(plan, v, b)
    ensures v.rank <= 4 && v.done <= Range(N(plan)) && Formed(plan, b)
  {
    hide Posted, Formed, Proper;
  }

  // ---------------------------------------------------------------- a log up to a stage

  // Participant i does a duty.
  ghost function Does(plan: Plan, rank: nat, i: int): Post
    requires plan.init.ProposalRequest? && rank < 5
  {
    Post(DutyAt(rank), i, if rank == 0 then plan.init.createdAt else plan.open, seq(N(plan), _ => plan.masterKey), [])
  }

  lemma DoesOk(plan: Plan, rank: nat, i: int)
    requires PlanOk(plan) && rank < 5 && 0 <= i < N(plan)
    ensures PostOk(plan, Does(plan, rank, i)) && Rank(Does(plan, rank, i).duty) == rank
  {
    hide Valid;
  }

  // Everybody has done all duties before a rank, and the first m participants that of the rank.
  ghost function Upto(plan: Plan, rank: nat, m: nat): seq<Post>
    requires plan.init.ProposalRequest? && rank < 5
    decreases rank, m
  {
    if m > 0 then Upto(plan, rank, m - 1) + [Does(plan, rank, m - 1)]
    else if rank > 0 then Upto(plan, rank - 1, N(plan)) else []
  }

  lemma OrderlyMore(plan: Plan, log: seq<Post>, b: Post)
    requires plan.init.ProposalRequest? && Orderly(plan, log) && Due(plan, ViewOf(N(plan), log), b)
    ensures Orderly(plan, log + [b])
    ensures ViewOf(N(plan), log + [b]) == Advance(N(plan), ViewOf(N(plan), log), b)
  {
    hide Due, Advance;
    var more, n := log + [b], N(plan);
    assert more[..|log|] == log && more[|log|] == b;
    forall k | 0 <= k < |more|
      ensures Due(plan, ViewOf(n, more[..k]), more[k])
    {
      assert more[..k] == log[..k];
      assert k == |log| ==> log[..k] == log;
    }
  }

  lemma {:induction false} UptoIs(plan: Plan, rank: nat, m: nat)
    requires PlanOk(plan) && rank < 5 && m <= N(plan)
    ensures Orderly(plan, Upto(plan, rank, m))
    ensures ViewOf(N(plan), Upto(plan, rank, m)) == if m == N(plan) then View(rank + 1, {}) else View(rank, Range(m))
    decreases rank, m
  {
    hide PlanOk, Orderly, ViewOf, Range, Does;
    PlanParts(plan);
    SomeParticipants(plan);
    if m > 0 {
      UptoIs(plan, rank, m - 1);
      UptoMore(plan, Upto(plan, rank, m - 1), rank, m);
    } else if rank > 0 {
      UptoIs(plan, rank - 1, N(plan));
      NobodyYet(plan);
    } else {
      NobodyYet(plan);
    }
  }

  lemma NobodyYet(plan: Plan)
    requires plan.init.ProposalRequest?
    ensures Range(0) == {} && Orderly(plan, []) && ViewOf(N(plan), []) == View(0, {})
  {
  }

  lemma UptoMore(plan: Plan, log: seq<Post>, rank: nat, m: nat)
    requires PlanOk(plan) && rank < 5 && 0 < m <= N(plan) && Orderly(plan, log)
    requires ViewOf(N(plan), log) == View(rank, Range(m - 1))
    ensures Orderly(plan, log + [Does(plan, rank, m - 1)])
    ensures ViewOf(N(plan), log + [Does(plan, rank, m - 1)])
            == if m == N(plan) then View(rank + 1, {}) else View(rank, Range(m))
  {
    hide PlanOk, Orderly, ViewOf, Formed, Proper, Advance, Range, Does, Rank;
    PlanParts(plan);
    DoesOk(plan, rank, m - 1);
    SenderIs(plan, rank, m - 1);
    OneMoreDone(N(plan), m);
    OrderlyMore(plan, log, Does(plan, rank, m - 1));
    AdvanceIs(N(plan), View(rank, Range(m - 1)), Does(plan, rank, m - 1));
  }

  lemma SomeParticipants(plan: Plan)
    requires PlanOk(plan)
    ensures 2 <= N(plan)
  {
  }

  lemma SenderIs(plan: Plan, rank: nat, i: int)
    requires plan.init.ProposalRequest? && rank < 5
    ensures Does(plan, rank, i).sender == i
  {
  }

  lemma OneMoreDone(n: nat, m: nat)
    requires 0 < m <= n
    ensures Range(m - 1) + {m - 1} == Range(m) && Range(m - 1) <= Range(n) && m - 1 in Range(n) - Range(m - 1)
    ensures Range(n) - Range(m - 1) == {m - 1} <==> m == n
  {
    hide Range;
    if m == n {
      assert Range(n) - Range(m - 1) == {m - 1};
    } else {
      assert m in Range(n) - Range(m - 1);
    }
  }

  // The inputs that bring a node to the beginning of a stage, or to signing for rank 5.
  ghost function To(plan: Plan, rank: nat, me: int, now: Time): seq<Input>
    requires PlanOk(plan) && 1 <= rank <= 5 && 0 <= me < N(plan)
  {
    UptoIs(plan, rank - 1, N(plan));
    Reads(plan, Upto(plan, rank - 1, N(plan)), me, now)
  }

  // Every stage of every ceremony is reached by some run.
  lemma StagesAreReached(env: Env, plan: Plan, rank: nat, me: int)
    requires PlanOk(plan) && 1 <= rank <= 5 && 0 <= me < N(plan)
    ensures Clocked(To(plan, rank, me, plan.open))
    ensures var i := RoundRun(env, None, To(plan, rank, me, plan.open));
            i.Some? && Follows(plan, i.value, View(rank, {}))
  {
    hide PlanOk, RoundRun, Follows, Upto, Reads, Orderly;
    PlanParts(plan);
    UptoIs(plan, rank - 1, N(plan));
    ReadsClocked(plan, Upto(plan, rank - 1, N(plan)), me, plan.open);
    ReadsFollow(env, plan, Upto(plan, rank - 1, N(plan)), me, plan.open);
  }

  // ---------------------------------------------------------------- a copy does what the original does

  // A replayed message: unchecked, with a new offset, and signed by whomever.
  ghost predicate Like(x: Input, m: Message) {
    x.skip && x.now == 1 && x.m == m.(offset := x.m.offset, signers := x.m.signers)
  }

  ghost predicate Copies(ins: seq<Input>, ms: seq<Message>) {
    |ins| == |ms| && forall k | 0 <= k < |ms| :: Like(ins[k], ms[k])
  }

  lemma DeliverCopies(env: Env, i: Inst, m: Message, offset: nat, signers: set<Bytes>, now: Time)
    ensures Deliver(env, i, m.(offset := offset, signers := signers), now) == Deliver(env, i, m, now)
  {
    hide Ceremony.Do, HandOver;
  }

  lemma CopySteps(env: Env, saved: Option<Inst>, x: Input, m: Message)
    requires Like(x, m) && (m.event == InitProposal || (saved.Some? && Verified(false, saved.value.payload, m)))
    ensures After(env, saved, x) == After(env, saved, Input(m, 1, false))
  {
    hide Deliver, Recover, Routable, TrimSpace;
    DeliverAll(env, x, m);
  }

  lemma DeliverAll(env: Env, x: Input, m: Message)
    requires Like(x, m)
    ensures forall i :: Deliver(env, i, x.m, 1) == Deliver(env, i, m, 1)
  {
    hide Deliver;
    forall i
      ensures Deliver(env, i, x.m, 1) == Deliver(env, i, m, 1)
    {
      DeliverCopies(env, i, m, x.m.offset, x.m.signers, 1);
    }
  }

  // What the node would have read of an orderly log.
  ghost function Texts(plan: Plan, log: seq<Post>, me: int): seq<Message>
    requires plan.init.ProposalRequest? && (forall k | 0 <= k < |log| :: Formed(plan, log[k])) && 0 <= me < N(plan)
  {
    if log == [] then [InitMessage(plan)]
    else Texts(plan, log[..|log| - 1], me) + [For(plan, log[|log| - 1], me)]
  }

  lemma OrderlyFormed(plan: Plan, log: seq<Post>)
    requires plan.init.ProposalRequest? && Orderly(plan, log)
    ensures forall k | 0 <= k < |log| :: PostOk(plan, log[k]) && Formed(plan, log[k])
  {
    hide Formed, Proper;
    forall k | 0 <= k < |log|
      ensures PostOk(plan, log[k]) && Formed(plan, log[k])
    {
      assert Due(plan, ViewOf(N(plan), log[..k]), log[k]);
    }
  }

  lemma {:induction false} CopiesFollow(env: Env, plan: Plan, log: seq<Post>, me: int, ins: seq<Input>)
    requires PlanOk(plan) && Orderly(plan, log) && 0 <= me < N(plan) && plan.open <= 1
    requires forall k | 0 <= k < |log| :: Formed(plan, log[k])
    requires Copies(ins, Texts(plan, log, me))
    ensures RoundRun(env, None, ins) == RoundRun(env, None, Reads(plan, log, me, 1))
    decreases |log|
  {
    hide PlanOk, RoundRun, Follows, Due, Orderly, For, Step, After, Like, Formed, Proper;
    PlanParts(plan);
    OrderlyFormed(plan, log);
    if log == [] {
      assert Like(ins[0], InitMessage(plan)) && ins == [] + [ins[0]];
      RunSnoc(env, None, [], ins[0]);
      RunSnoc(env, None, [], Input(InitMessage(plan), 1, false));
      assert [] + [Input(InitMessage(plan), 1, false)] == [Input(InitMessage(plan), 1, false)];
      CopySteps(env, RoundRun(env, None, []), ins[0], InitMessage(plan));
    } else {
      var k := |log| - 1;
      var before, b, m := log[..k], log[k], For(plan, log[k], me);
      OrderlyPrefix(plan, log, k);
      var first, last := ins[..|ins| - 1], ins[|ins| - 1];
      assert ins == first + [last] && Like(last, m);
      assert Copies(first, Texts(plan, before, me));
      CopiesFollow(env, plan, before, me, first);
      ReadsFollow(env, plan, before, me, 1);
      var i := RoundRun(env, None, first).value;
      FollowsKeyed(plan, i, ViewOf(N(plan), before));
      Trusted(plan, i.payload, b, me);
      RunSnoc(env, None, first, last);
      RunSnoc(env, None, Reads(plan, before, me, 1), Input(m, 1, false));
      CopySteps(env, Some(i), last, m);
    }
  }

  lemma FollowsKeyed(plan: Plan, i: Inst, v: View)
    requires plan.init.ProposalRequest? && Follows(plan, i, v)
    ensures Keyed(plan, i.payload)
  {
    hide Keyed, RoundInvariant.Inv;
  }
}
