/** All nodes of an honest ceremony, reading one log and posting to it in any interleaving. */
module HonestSystem {
  import opened Collections
  import opened Names
  import opened Payloads
  import opened NodeStep
  import opened RoundInvariant
  import opened Runs
  import opened HonestRun
  import opened Mailbox
  import Operations

  // A node: how many batches it has read, its saved round, and the operations it has not executed.
  datatype Node = Node(read: nat, saved: Option<Inst>, todo: set<Duty>)

  // The log after the first message - what was posted and the messages that carry it - and the
  // nodes, numbered like their participants.
  datatype Sys = Sys(log: seq<Post>, batches: seq<seq<Message>>, nodes: seq<Node>)

  datatype Action = Read(node: nat, now: Time) | Execute(node: nat, result: Post, sent: seq<Message>)

  ghost function Start(plan: Plan): (s: Sys)
    requires PlanOk(plan)
    ensures SysOk(plan, s)
  {
    Sys([], [], seq(N(plan), i => Node(0, None, {})))
  }

  // The messages of the log that a node handles.
  ghost function Inbox(plan: Plan, s: Sys, i: nat): seq<Message>
    requires PlanOk(plan) && i < N(plan)
  {
    Mine(Concat([[InitMessage(plan)]] + s.batches), Name(plan, i))
  }

  ghost predicate LogOk(plan: Plan, s: Sys)
    requires PlanOk(plan)
  {
    && |s.batches| == |s.log|
    && forall k | 0 <= k < |s.log| :: PostOk(plan, s.log[k]) && Carries(plan, s.log[k], s.batches[k])
  }

  // After the proposal a node finds one message for each post.
  lemma InboxIs(plan: Plan, s: Sys, i: nat)
    requires PlanOk(plan) && LogOk(plan, s) && i < N(plan)
    ensures |Inbox(plan, s, i)| == |s.log| + 1 && Inbox(plan, s, i)[0] == InitMessage(plan)
    ensures forall k | 0 <= k < |s.log| :: Inbox(plan, s, i)[k + 1] == For(plan, s.log[k], i)
  {
    hide PlanOk, Formed, Proper, For, Mine;
    PlanParts(plan);
    var all, name := [[InitMessage(plan)]] + s.batches, Name(plan, i);
    OnlyOne([InitMessage(plan)], name, 0);
    forall k | 0 <= k < |s.log|
      ensures all[k + 1] == s.batches[k] && Mine(s.batches[k], name) == [For(plan, s.log[k], i)]
    {
      assert Carries(plan, s.log[k], s.batches[k]);
    }
    assert forall k | 0 <= k < |all| :: |Mine(all[k], name)| == 1;
    OnePerBatch(all, name);
  }

  ghost function Assigned(op: Option<Operation>): set<Duty> {
    match op
    case Some(Operation(_, AwaitParticipants, _)) => {Approval}
    case Some(Operation(_, DkgAwait(stage), _)) => {Part(stage)}
    case _ => {}
  }

  // The next message is the last approval, with which the node opens the DKG.
  ghost predicate OpensDkg(plan: Plan, log: seq<Post>, read: nat)
    requires PlanOk(plan) && read <= |log|
  {
    read > 0 && ViewOf(N(plan), log[..read - 1]).rank == 0 && ViewOf(N(plan), log[..read]).rank == 1
  }

  ghost predicate Enabled(plan: Plan, s: Sys, a: Action)
    requires PlanOk(plan)
  {
    && |s.nodes| == N(plan) && a.node < N(plan)
    && match a
       case Read(i, now) =>
         s.nodes[i].read <= |s.log| && 0 < now && (OpensDkg(plan, s.log, s.nodes[i].read) ==> plan.open <= now)
       case Execute(i, b, sent) =>
         b.sender == i && b.duty in s.nodes[i].todo && PostOk(plan, b) && Carries(plan, b, sent)
  }

  // What the node makes of the next message of its inbox.
  ghost function Outcome(env: Env, plan: Plan, s: Sys, a: Action): StepOut
    requires PlanOk(plan) && LogOk(plan, s) && Enabled(plan, s, a) && a.Read?
  {
    InboxIs(plan, s, a.node);
    Step(env, false, s.nodes[a.node].saved, Inbox(plan, s, a.node)[s.nodes[a.node].read], a.now)
  }

  ghost function Apply(env: Env, plan: Plan, s: Sys, a: Action): Sys
    requires PlanOk(plan) && LogOk(plan, s) && Enabled(plan, s, a)
  {
    var node := s.nodes[a.node];
    match a
    case Read(i, now) =>
      var out := Outcome(env, plan, s, a);
      s.(nodes := s.nodes[i := Node(node.read + 1, out.saved, node.todo + Assigned(out.op))])
    case Execute(i, b, sent) =>
      Sys(s.log + [b], s.batches + [sent], s.nodes[i := node.(todo := node.todo - {b.duty})])
  }

  // ---------------------------------------------------------------- the invariant

  ghost predicate NodeOk(plan: Plan, log: seq<Post>, i: int, node: Node)
    requires PlanOk(plan)
  {
    if node.read == 0
    then node.saved.None? && node.todo == {} && forall d: Duty :: !Posted(log, d, i)
    else
      && node.read <= |log| + 1 && node.saved.Some?
      && var v := ViewOf(N(plan), log[..node.read - 1]);
         && Follows(plan, node.saved.value, v)
         && (forall d: Duty :: d in node.todo <==> Rank(d) <= v.rank && !Posted(log, d, i))
         && (forall d: Duty :: Posted(log, d, i) ==> Rank(d) <= v.rank)
  }

  ghost predicate SysOk(plan: Plan, s: Sys)
    requires PlanOk(plan)
  {
    && |s.nodes| == N(plan) && LogOk(plan, s) && Orderly(plan, s.log)
    && forall i | 0 <= i < N(plan) :: NodeOk(plan, s.log, i, s.nodes[i])
  }

  // ---------------------------------------------------------------- reading

  lemma ViewAt(plan: Plan, log: seq<Post>, k: nat)
    requires PlanOk(plan) && Orderly(plan, log) && k <= |log|
    ensures ViewExact(plan, log[..k], ViewOf(N(plan), log[..k]))
    ensures k < |log| ==> Due(plan, ViewOf(N(plan), log[..k]), log[k])
    ensures k < |log| ==> ViewOf(N(plan), log[..k + 1]) == Advance(N(plan), ViewOf(N(plan), log[..k]), log[k])
  {
    hide Valid, ViewExact, Formed, Proper, Advance;
    OrderlyPrefix(plan, log, k);
    ViewIsExact(plan, log[..k]);
    if k < |log| {
      assert log[..k + 1][..k] == log[..k];
    }
  }

  // A read is never refused and follows the view.
  lemma ReadFollows(env: Env, plan: Plan, s: Sys, a: Action)
    requires PlanOk(plan) && SysOk(plan, s) && Enabled(plan, s, a) && a.Read?
    ensures var out := Outcome(env, plan, s, a);
            && out.err.None? && out.saved.Some?
            && Follows(plan, out.saved.value, ViewOf(N(plan), s.log[..s.nodes[a.node].read]))
  {
    hide Step, Follows, ViewExact, Formed, Proper, Advance, Valid;
    var i, node := a.node, s.nodes[a.node];
    assert NodeOk(plan, s.log, i, node);
    InboxIs(plan, s, i);
    if node.read == 0 {
      ReadInit(env, plan, a.now);
      assert s.log[..0] == [];
    } else {
      var k := node.read - 1;
      ViewAt(plan, s.log, k);
      var v := ViewOf(N(plan), s.log[..k]);
      ExactParts(plan, s.log[..k], v);
      DueRank(plan, v, s.log[k]);
      if v.rank == 0 {
        ReadApproval(env, plan, node.saved.value, v, s.log[k], i, a.now);
      } else {
        ReadPart(env, plan, node.saved.value, v, s.log[k], i, a.now);
      }
    }
  }

  lemma ExactParts(plan: Plan, log: seq<Post>, v: View)
    requires PlanOk(plan) && ViewExact(plan, log, v)
    ensures v.rank <= 5 && v.done <= Range(N(plan))
  {
    hide Posted;
  }

  lemma DueRank(plan: Plan, v: View, b: Post)
    requires PlanOk(plan) && Due(plan, v, b)
    ensures v.rank <= 4
  {
    hide Formed, Proper;
  }

  lemma FollowsParts(plan: Plan, i: Inst, v: View)
    requires PlanOk(plan) && Follows(plan, i, v)
    ensures Inv(i) && v.rank <= 5 && i.state == StateAt(v.rank)
  {
    hide Inv, Keyed, Invited, InPart;
  }

  lemma AssignedAt(op: Option<Operation>, before: Option<State>, rank: nat)
    requires rank <= 5
    requires op.Some? <==> NeedsOperation(StateAt(rank)) && before != Some(StateAt(rank))
    requires op.Some? ==> op.value.state == StateAt(rank)
    ensures forall d: Duty :: d in Assigned(op) <==> Rank(d) == rank && before != Some(StateAt(rank))
    ensures rank == 0 && before.None? ==> Assigned(op) == {Approval}
  {
  }

  lemma StatesDiffer(a: nat, b: nat)
    requires a <= 5 && b <= 5
    ensures StateAt(a) == StateAt(b) <==> a == b
  {
  }

  lemma AdvanceRank(n: nat, v: View, b: Post)
    ensures v.rank <= Advance(n, v, b).rank <= v.rank + 1
  {
  }

  ghost function StateOf(saved: Option<Inst>): Option<State> {
    if saved.None? then None else Some(saved.value.state)
  }

  // A read assigns exactly the duty that the node has just arrived at.
  lemma ReadAssigns(env: Env, plan: Plan, s: Sys, a: Action)
    requires PlanOk(plan) && SysOk(plan, s) && Enabled(plan, s, a) && a.Read?
    ensures var node := s.nodes[a.node];
            var w := ViewOf(N(plan), s.log[..node.read]);
            var given := Assigned(Outcome(env, plan, s, a).op);
            && w.rank <= 5
            && (node.read == 0 ==> w.rank == 0 && given == {Approval})
            && (node.read > 0 ==>
                  var v := ViewOf(N(plan), s.log[..node.read - 1]);
                  && v.rank <= w.rank <= v.rank + 1
                  && forall d: Duty :: d in given <==> v.rank < w.rank && Rank(d) == w.rank)
  {
    hide Step, Inv, Follows, Operations.Complete, Formed, Proper, Valid, Posted, StateAt, Assigned, Advance, Rank,
         ViewExact;
    var i, node := a.node, s.nodes[a.node];
    assert NodeOk(plan, s.log, i, node);
    ReadFollows(env, plan, s, a);
    var out, w := Outcome(env, plan, s, a), ViewOf(N(plan), s.log[..node.read]);
    FollowsParts(plan, out.saved.value, w);
    if node.read > 0 {
      var v := ViewOf(N(plan), s.log[..node.read - 1]);
      FollowsParts(plan, node.saved.value, v);
      ViewAt(plan, s.log, node.read - 1);
      AdvanceRank(N(plan), v, s.log[node.read - 1]);
      StatesDiffer(v.rank, w.rank);
    } else {
      assert s.log[..0] == [];
    }
    InboxIs(plan, s, i);
    Operations.OneOperationPerEntry(env, node.saved, Input(Inbox(plan, s, i)[node.read], a.now, false));
    AssignedAt(out.op, StateOf(node.saved), w.rank);
  }

  lemma ReadKeeps(env: Env, plan: Plan, s: Sys, a: Action)
    requires PlanOk(plan) && SysOk(plan, s) && Enabled(plan, s, a) && a.Read?
    ensures SysOk(plan, Apply(env, plan, s, a))
  {
    hide Step, Follows, Formed, Proper, Carries, Valid, Posted, Outcome, ViewOf, Orderly, Rank, Assigned;
    var i, node := a.node, s.nodes[a.node];
    var s1 := Apply(env, plan, s, a);
    assert NodeOk(plan, s.log, i, node);
    ReadFollows(env, plan, s, a);
    ReadAssigns(env, plan, s, a);
    ApprovalRank();
    assert NodeOk(plan, s.log, i, s1.nodes[i]);
    forall j | 0 <= j < N(plan)
      ensures NodeOk(plan, s1.log, j, s1.nodes[j])
    {
      assert NodeOk(plan, s.log, j, s.nodes[j]);
    }
  }

  lemma ApprovalRank()
    ensures forall d: Duty :: Rank(d) <= 0 <==> d == Approval
  {
  }

  // ---------------------------------------------------------------- posting

  // Whoever still has a duty finds the whole log waiting for it.
  lemma DutyIsDue(plan: Plan, s: Sys, a: Action)
    requires PlanOk(plan) && SysOk(plan, s) && Enabled(plan, s, a) && a.Execute?
    ensures Due(plan, ViewOf(N(plan), s.log), a.result) && Orderly(plan, s.log + [a.result])
  {
    hide Formed, Proper, Valid, Posted, Follows, Advance;
    var i, node, b, n := a.node, s.nodes[a.node], a.result, N(plan);
    assert NodeOk(plan, s.log, i, node);
    assert s.log[..|s.log|] == s.log;
    ViewAt(plan, s.log, |s.log|);
    ViewAt(plan, s.log, node.read - 1);
    RankGrows(plan, s.log, node.read - 1);
    assert Due(plan, ViewOf(n, s.log), b);
    var l1 := s.log + [b];
    forall k | 0 <= k < |l1|
      ensures Due(plan, ViewOf(n, l1[..k]), l1[k])
    {
      assert l1[..k] == s.log[..k];
    }
  }

  lemma {:induction false} RankGrows(plan: Plan, log: seq<Post>, k: nat)
    requires PlanOk(plan) && Orderly(plan, log) && k <= |log|
    ensures ViewOf(N(plan), log[..k]).rank <= ViewOf(N(plan), log).rank
    decreases |log| - k
  {
    hide Formed, Proper, Valid;
    if k < |log| {
      ViewAt(plan, log, k);
      RankGrows(plan, log, k + 1);
    } else {
      assert log[..k] == log;
    }
  }

  lemma ExecuteKeeps(env: Env, plan: Plan, s: Sys, a: Action)
    requires PlanOk(plan) && SysOk(plan, s) && Enabled(plan, s, a) && a.Execute?
    ensures SysOk(plan, Apply(env, plan, s, a))
  {
    hide Formed, Proper, Valid, Posted, Follows, Orderly, ViewOf, Rank;
    var i, b := a.node, a.result;
    var s1 := Apply(env, plan, s, a);
    DutyIsDue(plan, s, a);
    forall j | 0 <= j < N(plan)
      ensures NodeOk(plan, s1.log, j, s1.nodes[j])
    {
      var node := s.nodes[j];
      assert NodeOk(plan, s.log, j, node);
      forall d: Duty
        ensures Posted(s1.log, d, j) <==> Posted(s.log, d, j) || (b.duty == d && b.sender == j)
      {
        PostedGrows(s.log, b, d, j);
      }
      if node.read > 0 {
        assert s1.log[..node.read - 1] == s.log[..node.read - 1];
      }
    }
  }

  // ---------------------------------------------------------------- whole runs

  // Each action is enabled when its turn comes; nothing else is demanded of the order.
  ghost predicate Playable(env: Env, plan: Plan, s: Sys, actions: seq<Action>)
    requires PlanOk(plan) && SysOk(plan, s)
    decreases |actions|
  {
    actions == [] ||
    (Enabled(plan, s, actions[0])
     && (ActionKeeps(env, plan, s, actions[0]);
         Playable(env, plan, Apply(env, plan, s, actions[0]), actions[1..])))
  }

  ghost function Final(env: Env, plan: Plan, s: Sys, actions: seq<Action>): (e: Sys)
    requires PlanOk(plan) && SysOk(plan, s) && Playable(env, plan, s, actions)
    ensures SysOk(plan, e)
    decreases |actions|
  {
    if actions == [] then s
    else
      ActionKeeps(env, plan, s, actions[0]);
      Final(env, plan, Apply(env, plan, s, actions[0]), actions[1..])
  }

  lemma ActionKeeps(env: Env, plan: Plan, s: Sys, a: Action)
    requires PlanOk(plan) && SysOk(plan, s) && Enabled(plan, s, a)
    ensures SysOk(plan, Apply(env, plan, s, a))
  {
    hide SysOk, Apply, Enabled;
    if a.Read? {
      ReadKeeps(env, plan, s, a);
    } else {
      ExecuteKeeps(env, plan, s, a);
    }
  }

  // In every interleaving, whatever a node reads next is accepted.
  lemma NothingIsRefused(env: Env, plan: Plan, actions: seq<Action>, a: Action)
    requires PlanOk(plan) && Playable(env, plan, Start(plan), actions)
    requires Enabled(plan, Final(env, plan, Start(plan), actions), a) && a.Read?
    ensures Outcome(env, plan, Final(env, plan, Start(plan), actions), a).err.None?
  {
    hide SysOk, Final, Enabled, Outcome;
    ReadFollows(env, plan, Final(env, plan, Start(plan), actions), a);
  }

  // Nothing is left to read or to execute.
  ghost predicate Quiet(s: Sys) {
    forall i | 0 <= i < |s.nodes| :: s.nodes[i].read == |s.log| + 1 && s.nodes[i].todo == {}
  }

  // When nothing is left to read or to execute, every node is ready to sign, and the log holds
  // each participant's approval and its answer to each stage.
  lemma HonestRunsComplete(env: Env, plan: Plan, actions: seq<Action>)
    requires PlanOk(plan) && Playable(env, plan, Start(plan), actions)
    requires Quiet(Final(env, plan, Start(plan), actions))
    ensures var e := Final(env, plan, Start(plan), actions);
            && |e.nodes| == N(plan)
            && (forall i | 0 <= i < N(plan) :: e.nodes[i].saved.Some? && e.nodes[i].saved.value.state == SigningIdle)
            && (forall i, d: Duty | 0 <= i < N(plan) :: Posted(e.log, d, i))
  {
    hide Final, Playable, SysOk, Quiet, Posted;
    QuietIsDone(plan, Final(env, plan, Start(plan), actions));
  }

  lemma QuietIsDone(plan: Plan, e: Sys)
    requires PlanOk(plan) && SysOk(plan, e) && Quiet(e)
    ensures |e.nodes| == N(plan)
    ensures forall i | 0 <= i < N(plan) :: e.nodes[i].saved.Some? && e.nodes[i].saved.value.state == SigningIdle
    ensures forall i, d: Duty | 0 <= i < N(plan) :: Posted(e.log, d, i)
  {
    hide Valid, Formed, Proper, Posted, Follows, Orderly, LogOk, ViewOf, ViewExact;
    var v := ViewOf(N(plan), e.log);
    WholeLog(plan, e);
    ExactParts(plan, e.log, v);
    if v.rank < 5 {
      SomeoneOwes(plan, e.log, v);
    }
    forall i | 0 <= i < N(plan)
      ensures e.nodes[i].saved.Some? && e.nodes[i].saved.value.state == SigningIdle
    {
      FollowsParts(plan, e.nodes[i].saved.value, v);
    }
  }

  // In a quiet system every node has caught up with the log and owes nothing to it.
  lemma WholeLog(plan: Plan, e: Sys)
    requires PlanOk(plan) && SysOk(plan, e) && Quiet(e)
    ensures var v := ViewOf(N(plan), e.log);
            && ViewExact(plan, e.log, v)
            && PaidUp(plan, e.log, v.rank)
            && forall i | 0 <= i < N(plan) ::
                 e.nodes[i].saved.Some? && Follows(plan, e.nodes[i].saved.value, v)
  {
    hide Valid, Formed, Proper, Posted, Follows, Orderly, LogOk, ViewOf, ViewExact, Rank;
    assert e.log[..|e.log|] == e.log;
    OrderlyView(plan, e);
    forall i, d: Duty | 0 <= i < N(plan)
      ensures NodeOk(plan, e.log, i, e.nodes[i]) && (Rank(d) <= ViewOf(N(plan), e.log).rank ==> Posted(e.log, d, i))
    {
      assert d !in e.nodes[i].todo;
    }
  }

  lemma OrderlyView(plan: Plan, e: Sys)
    requires PlanOk(plan) && SysOk(plan, e)
    ensures ViewExact(plan, e.log, ViewOf(N(plan), e.log))
  {
    hide Valid, ViewExact, ViewOf, Orderly, LogOk, NodeOk;
    ViewIsExact(plan, e.log);
  }

  // Everybody has posted every duty up to a rank.
  ghost predicate PaidUp(plan: Plan, log: seq<Post>, rank: nat)
    requires PlanOk(plan)
  {
    forall i, d: Duty | 0 <= i < N(plan) && Rank(d) <= rank :: Posted(log, d, i)
  }

  // In an unfinished ceremony somebody owes the current duty.
  lemma SomeoneOwes(plan: Plan, log: seq<Post>, v: View)
    requires PlanOk(plan) && ViewExact(plan, log, v) && v.rank < 5
    ensures !PaidUp(plan, log, v.rank)
  {
    hide Posted, Valid;
    var i := SomeOf(Range(N(plan)) - v.done);
    assert Rank(DutyAt(v.rank)) == v.rank;
    assert !Posted(log, DutyAt(v.rank), i);
  }

  // While the system is not quiet, some node can go on.
  lemma NeverStuck(env: Env, plan: Plan, actions: seq<Action>) returns (a: Action)
    requires PlanOk(plan) && Playable(env, plan, Start(plan), actions)
    requires !Quiet(Final(env, plan, Start(plan), actions))
    ensures Enabled(plan, Final(env, plan, Start(plan), actions), a)
  {
    hide Final, Playable, Orderly, LogOk, Valid, Follows, ViewOf;
    var s := Final(env, plan, Start(plan), actions);
    var i :| 0 <= i < |s.nodes| && !(s.nodes[i].read == |s.log| + 1 && s.nodes[i].todo == {});
    assert NodeOk(plan, s.log, i, s.nodes[i]);
    if s.nodes[i].read <= |s.log| {
      a := Read(i, plan.open);
    } else {
      var d := SomeOf(s.nodes[i].todo);
      var at := if d == Approval then plan.init.createdAt else plan.open;
      var b := Post(d, i, at, seq(N(plan), _ => plan.masterKey), []);
      var sent := SomeCarrier(plan, b);
      a := Execute(i, b, sent);
    }
  }

  lemma SomeCarrier(plan: Plan, b: Post) returns (sent: seq<Message>)
    requires PlanOk(plan) && Formed(plan, b)
    ensures Carries(plan, b, sent)
  {
    hide Carries;
    if b.duty == Part(Deals) {
      sent := seq(N(plan), i requires 0 <= i < N(plan) => For(plan, b, i));
      var order := Iota(N(plan));
      forall i | 0 <= i < N(plan)
        ensures i in order
      {
        assert order[i] == i;
      }
      DealsCarry(plan, b, sent, order);
    } else {
      sent := [For(plan, b, 0)];
      BroadcastCarries(plan, b);
    }
  }
}
