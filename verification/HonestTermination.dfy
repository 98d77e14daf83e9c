/** Every run of an honest ceremony is finite, and the longest runs are exactly the complete ones. */
module HonestTermination {
  import opened Collections
  import opened Payloads
  import opened NodeStep
  import opened HonestRun
  import opened HonestSystem

  // ---------------------------------------------------------------- the log is as long as the view is far

  lemma {:induction false} ViewCounts(plan: Plan, log: seq<Post>)
    requires PlanOk(plan) && Orderly(plan, log)
    ensures var v := ViewOf(N(plan), log);
            |log| == N(plan) * v.rank + |v.done| && v.rank <= 5 && v.done < Range(N(plan))
    ensures ViewOf(N(plan), log).rank == 5 ==> ViewOf(N(plan), log).done == {}
    decreases |log|
  {
    hide PlanOk, Due, Orderly, ViewExact, Advance, Range;
    PlanParts(plan);
    ViewIsExact(plan, log);
    ExactView(plan, log, ViewOf(N(plan), log));
    if log != [] {
      var before, b := log[..|log| - 1], log[|log| - 1];
      OrderlyPrefix(plan, log, |log| - 1);
      ViewCounts(plan, before);
      LastDue(plan, log);
      AdvanceCounts(plan, ViewOf(N(plan), before), b);
    }
  }

  lemma ExactView(plan: Plan, log: seq<Post>, v: View)
    requires plan.init.ProposalRequest? && ViewExact(plan, log, v)
    ensures v.rank <= 5 && v.done < Range(N(plan)) && (v.rank == 5 ==> v.done == {})
  {
    hide Posted;
  }

  lemma AdvanceCounts(plan: Plan, v: View, b: Post)
    requires plan.init.ProposalRequest? && Due(plan, v, b) && v.done < Range(N(plan))
    ensures var w := Advance(N(plan), v, b); N(plan) * w.rank + |w.done| == N(plan) * v.rank + |v.done| + 1
  {
    hide Formed, Proper, Range;
    var n := N(plan);
    assert |v.done + {b.sender}| == |v.done| + 1;
    assert n * (v.rank + 1) == n * v.rank + n;
  }

  // ---------------------------------------------------------------- what is left to do

  // How many messages the nodes have not read, all together.
  function Lag(nodes: seq<Node>, end: nat): int {
    if nodes == [] then 0 else end - nodes[0].read + Lag(nodes[1..], end)
  }

  lemma {:induction false} LagUpdates(nodes: seq<Node>, end: nat, i: nat, x: Node)
    requires i < |nodes|
    ensures Lag(nodes[i := x], end) == Lag(nodes, end) + nodes[i].read - x.read
    decreases |nodes|
  {
    if i > 0 {
      assert nodes[i := x][1..] == nodes[1..][i - 1 := x];
      LagUpdates(nodes[1..], end, i - 1, x);
    } else {
      assert nodes[i := x][1..] == nodes[1..];
    }
  }

  lemma {:induction false} LagGrows(nodes: seq<Node>, end: nat)
    ensures Lag(nodes, end + 1) == Lag(nodes, end) + |nodes|
    decreases |nodes|
  {
    if nodes != [] {
      LagGrows(nodes[1..], end);
    }
  }

  lemma {:induction false} LagZero(nodes: seq<Node>, end: nat)
    requires forall i | 0 <= i < |nodes| :: nodes[i].read <= end
    ensures 0 <= Lag(nodes, end)
    ensures Lag(nodes, end) == 0 <==> forall i | 0 <= i < |nodes| :: nodes[i].read == end
    decreases |nodes|
  {
    if nodes != [] {
      assert forall i | 0 <= i < |nodes[1..]| :: nodes[1..][i] == nodes[i + 1];
      LagZero(nodes[1..], end);
      assert (forall i | 0 <= i < |nodes| :: nodes[i].read == end) ==>
          nodes[0].read == end && forall i | 0 <= i < |nodes[1..]| :: nodes[1..][i].read == end;
      if Lag(nodes, end) == 0 {
        assert forall i | 1 <= i < |nodes| :: nodes[i] == nodes[1..][i - 1];
      }
    }
  }

  lemma {:induction false} LagAtStart(nodes: seq<Node>)
    requires forall i | 0 <= i < |nodes| :: nodes[i].read == 0
    ensures Lag(nodes, 1) == |nodes|
    decreases |nodes|
  {
    if nodes != [] {
      LagAtStart(nodes[1..]);
    }
  }

  // Every post still to come will be written once and read by all N; every message in the log is
  // still to be read by those behind it.
  ghost function Left(plan: Plan, s: Sys): int
    requires plan.init.ProposalRequest?
  {
    (5 * N(plan) - |s.log|) * (N(plan) + 1) + Lag(s.nodes, |s.log| + 1)
  }

  // Each action does exactly one of the things left.
  lemma ActionCounts(env: Env, plan: Plan, s: Sys, a: Action)
    requires PlanOk(plan) && SysOk(plan, s) && Enabled(plan, s, a)
    ensures Left(plan, Apply(env, plan, s, a)) == Left(plan, s) - 1
  {
    hide Outcome, NodeOk, Orderly, LogOk, Formed, Proper, Assigned, PlanOk;
    PlanParts(plan);
    var node := s.nodes[a.node];
    var s1 := Apply(env, plan, s, a);
    LagUpdates(s.nodes, |s.log| + 1, a.node, s1.nodes[a.node]);
    if a.Execute? {
      LagGrows(s1.nodes, |s.log| + 1);
      assert |s1.log| == |s.log| + 1;
      Distribute(5 * N(plan) - |s.log|, N(plan) + 1);
    }
  }

  lemma Distribute(x: int, y: int)
    ensures (x - 1) * y == x * y - y
  {
  }

  lemma {:induction false} RunCounts(env: Env, plan: Plan, s: Sys, actions: seq<Action>)
    requires PlanOk(plan) && SysOk(plan, s) && Playable(env, plan, s, actions)
    ensures |actions| + Left(plan, Final(env, plan, s, actions)) == Left(plan, s)
    decreases |actions|
  {
    hide PlanOk, NodeOk, LogOk, Orderly, Enabled, Apply, Left;
    PlanParts(plan);
    if actions != [] {
      ActionCounts(env, plan, s, actions[0]);
      ActionKeeps(env, plan, s, actions[0]);
      RunCounts(env, plan, Apply(env, plan, s, actions[0]), actions[1..]);
    }
  }

  // ---------------------------------------------------------------- nothing left

  lemma ReadsInLog(plan: Plan, s: Sys)
    requires PlanOk(plan) && SysOk(plan, s)
    ensures |s.nodes| == N(plan) && Orderly(plan, s.log)
    ensures forall i | 0 <= i < |s.nodes| :: s.nodes[i].read <= |s.log| + 1
  {
    hide PlanOk, Orderly, LogOk, Follows, Posted, ViewOf;
    forall i | 0 <= i < |s.nodes|
      ensures s.nodes[i].read <= |s.log| + 1
    {
      assert NodeOk(plan, s.log, i, s.nodes[i]);
    }
  }

  // A full log and nothing unread is a quiet system.
  lemma FullIsQuiet(plan: Plan, s: Sys)
    requires PlanOk(plan) && SysOk(plan, s) && |s.log| == 5 * N(plan)
    requires forall i | 0 <= i < |s.nodes| :: s.nodes[i].read == |s.log| + 1
    ensures Quiet(s)
  {
    hide PlanOk, Orderly, LogOk, Follows, Posted, ViewOf, ViewExact, Rank, Range;
    PlanParts(plan);
    ReadsInLog(plan, s);
    OrderlyView(plan, s);
    FullRank(plan, s.log);
    assert s.log[..|s.log|] == s.log;
    forall i | 0 <= i < |s.nodes|
      ensures s.nodes[i].todo == {}
    {
      assert NodeOk(plan, s.log, i, s.nodes[i]);
      forall d: Duty
        ensures Posted(s.log, d, i)
      {
        FinalPosted(plan, s.log, ViewOf(N(plan), s.log), d, i);
      }
      assert forall d :: d !in s.nodes[i].todo;
    }
  }

  lemma FullRank(plan: Plan, log: seq<Post>)
    requires PlanOk(plan) && Orderly(plan, log)
    ensures |log| <= 5 * N(plan)
    ensures |log| == 5 * N(plan) <==> ViewOf(N(plan), log).rank == 5
  {
    hide PlanOk, Orderly, ViewOf, Range;
    PlanParts(plan);
    ViewCounts(plan, log);
    var v := ViewOf(N(plan), log);
    Smaller(v.done, Range(N(plan)));
    RankBound(N(plan), v.rank, |v.done|);
  }

  lemma Smaller(a: set<int>, b: set<int>)
    requires a < b
    ensures |a| < |b|
  {
    var x := SomeOf(b - a);
    assert b == a + (b - a);
    assert |b| == |a| + |b - a|;
  }

  lemma RankBound(n: nat, rank: nat, done: nat)
    requires rank <= 5 && done < n && (rank == 5 ==> done == 0)
    ensures n * rank + done <= 5 * n
    ensures n * rank + done == 5 * n <==> rank == 5
  {
    if rank < 5 {
      assert n * rank <= n * 4;
    }
  }

  lemma FinalPosted(plan: Plan, log: seq<Post>, v: View, d: Duty, i: int)
    requires PlanOk(plan) && ViewExact(plan, log, v) && v.rank == 5 && 0 <= i < N(plan)
    ensures Posted(log, d, i)
  {
    hide Posted, PlanOk;
  }

  // A quiet system has a full log.
  lemma QuietIsFull(plan: Plan, s: Sys)
    requires PlanOk(plan) && SysOk(plan, s) && Quiet(s)
    ensures |s.log| == 5 * N(plan)
  {
    hide PlanOk, SysOk, Posted, Orderly, ViewOf, ViewExact, Follows;
    PlanParts(plan);
    ReadsInLog(plan, s);
    WholeLog(plan, s);
    var v := ViewOf(N(plan), s.log);
    ExactParts(plan, s.log, v);
    if v.rank < 5 {
      SomeoneOwes(plan, s.log, v);
    }
    FullRank(plan, s.log);
  }

  // ---------------------------------------------------------------- the theorem

  // A ceremony of N honest nodes takes at most 5N(N+1)+N actions in any order: the first message
  // and 5N posts, each read by all. A run is that long exactly when it is complete.
  lemma HonestRunsTerminate(env: Env, plan: Plan, actions: seq<Action>)
    requires PlanOk(plan) && Playable(env, plan, Start(plan), actions)
    ensures |actions| <= 5 * N(plan) * (N(plan) + 1) + N(plan)
    ensures |actions| == 5 * N(plan) * (N(plan) + 1) + N(plan) <==> Quiet(Final(env, plan, Start(plan), actions))
  {
    hide PlanOk, SysOk, Playable, Final, Quiet;
    PlanParts(plan);
    RunCounts(env, plan, Start(plan), actions);
    LeftAtStart(plan);
    LeftSays(plan, Final(env, plan, Start(plan), actions));
  }

  lemma LeftAtStart(plan: Plan)
    requires PlanOk(plan)
    ensures Left(plan, Start(plan)) == 5 * N(plan) * (N(plan) + 1) + N(plan)
  {
    hide SysOk, PlanOk;
    PlanParts(plan);
    LagAtStart(Start(plan).nodes);
  }

  lemma LeftSays(plan: Plan, s: Sys)
    requires PlanOk(plan) && SysOk(plan, s)
    ensures 0 <= Left(plan, s)
    ensures Left(plan, s) == 0 <==> Quiet(s)
  {
    hide PlanOk, SysOk, Orderly, ViewOf;
    PlanParts(plan);
    ReadsInLog(plan, s);
    LagZero(s.nodes, |s.log| + 1);
    FullRank(plan, s.log);
    var x, y := 5 * N(plan) - |s.log|, N(plan) + 1;
    NoneLeft(x, y);
    if x == 0 && Lag(s.nodes, |s.log| + 1) == 0 {
      FullIsQuiet(plan, s);
    }
    if Quiet(s) {
      QuietIsFull(plan, s);
    }
  }

  lemma NoneLeft(x: int, y: int)
    requires 0 <= x && 0 < y
    ensures 0 <= x * y && (x * y == 0 <==> x == 0)
  {
  }

  // Every run can be extended to a complete one.
  lemma {:induction false} HonestRunsExtend(env: Env, plan: Plan, actions: seq<Action>) returns (all: seq<Action>)
    requires PlanOk(plan) && Playable(env, plan, Start(plan), actions)
    ensures Playable(env, plan, Start(plan), all) && Quiet(Final(env, plan, Start(plan), all))
    ensures |actions| <= |all| && all[..|actions|] == actions
    decreases 5 * N(plan) * (N(plan) + 1) + N(plan) - |actions|
  {
    hide PlanOk, SysOk, Playable, Final, Quiet, Enabled;
    PlanParts(plan);
    if Quiet(Final(env, plan, Start(plan), actions)) {
      all := actions;
    } else {
      HonestRunsTerminate(env, plan, actions);
      var a := NeverStuck(env, plan, actions);
      OneMore(env, plan, Start(plan), actions, a);
      all := HonestRunsExtend(env, plan, actions + [a]);
      assert all[..|actions|] == all[..|actions| + 1][..|actions|];
    }
  }

  lemma {:induction false} OneMore(env: Env, plan: Plan, s: Sys, actions: seq<Action>, a: Action)
    requires PlanOk(plan) && SysOk(plan, s) && Playable(env, plan, s, actions)
    requires Enabled(plan, Final(env, plan, s, actions), a)
    ensures Playable(env, plan, s, actions + [a])
    decreases |actions|
  {
    hide PlanOk, NodeOk, LogOk, Orderly, Enabled, Apply;
    var more := actions + [a];
    if actions == [] {
      assert more[0] == a && more[1..] == [];
      ActionKeeps(env, plan, s, a);
    } else {
      assert more[0] == actions[0] && more[1..] == actions[1..] + [a];
      ActionKeeps(env, plan, s, actions[0]);
      OneMore(env, plan, Apply(env, plan, s, actions[0]), actions[1..], a);
    }
  }
}
