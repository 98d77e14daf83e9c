/** In an honest ceremony every node's round records exactly what was posted. */
module HonestRecord {
  import opened Names
  import opened Payloads
  import opened NodeStep
  import opened RoundInvariant
  import opened Steps
  import opened Runs
  import opened History
  import opened HonestRun
  import opened HonestSystem
  import Admission
  import Provenance

  // The facts are the messages which the node found in the log so far, the proposal first.
  ghost predicate HeardAll(plan: Plan, log: seq<Post>, i: int, read: nat, h: seq<Fact>)
    requires PlanOk(plan) && 0 <= i < N(plan) && forall k | 0 <= k < |log| :: Formed(plan, log[k])
  {
    && |h| == read && read <= |log| + 1
    && (read > 0 ==> h[0].event == InitProposal && h[0].data == plan.init)
    && forall k | 1 <= k < read ::
         h[k].event == For(plan, log[k - 1], i).event && h[k].data == For(plan, log[k - 1], i).data
  }

  lemma AllFormed(plan: Plan, s: Sys)
    requires PlanOk(plan) && LogOk(plan, s)
    ensures forall k | 0 <= k < |s.log| :: Formed(plan, s.log[k])
  {
    hide Formed, Proper, Carries;
  }

  ghost predicate NodeRecords(plan: Plan, s: Sys, i: int)
    requires PlanOk(plan) && LogOk(plan, s) && 0 <= i < N(plan) && |s.nodes| == N(plan)
  {
    AllFormed(plan, s);
    exists h :: HeardAll(plan, s.log, i, s.nodes[i].read, h) && Provenance.SavedRecords(s.nodes[i].saved, h)
  }

  lemma RecordedBy(plan: Plan, s: Sys, i: int, h: seq<Fact>)
    requires PlanOk(plan) && LogOk(plan, s) && 0 <= i < N(plan) && |s.nodes| == N(plan)
    requires forall k | 0 <= k < |s.log| :: Formed(plan, s.log[k])
    requires HeardAll(plan, s.log, i, s.nodes[i].read, h) && Provenance.SavedRecords(s.nodes[i].saved, h)
    ensures NodeRecords(plan, s, i)
  {
    hide PlanOk, Formed, HeardAll, Provenance.SavedRecords, LogOk;
  }

  ghost predicate AllRecord(plan: Plan, s: Sys)
    requires PlanOk(plan) && SysOk(plan, s)
  {
    forall i | 0 <= i < N(plan) :: NodeRecords(plan, s, i)
  }

  // ---------------------------------------------------------------- a read

  // What an honest node reads is accepted, not merely not refused.
  lemma ReadAccepts(env: Env, plan: Plan, s: Sys, a: Action)
    requires PlanOk(plan) && SysOk(plan, s) && Enabled(plan, s, a) && a.Read?
    ensures var node := s.nodes[a.node];
            && LogOk(plan, s) && node.read < |Inbox(plan, s, a.node)|
            && SavedInv(node.saved)
            && History.Accepted(env, node.saved, Input(Inbox(plan, s, a.node)[node.read], a.now, false))
  {
    hide Step, Follows, Formed, Proper, Carries, Posted, Rank, ViewExact, Due, Orderly, Inv, For, Mailbox.Mine,
         PlanOk;
    PlanParts(plan);
    var i, node := a.node, s.nodes[a.node];
    assert NodeOk(plan, s.log, i, node);
    InboxIs(plan, s, i);
    ReadFollows(env, plan, s, a);
    var out, x := Outcome(env, plan, s, a), Input(Inbox(plan, s, i)[node.read], a.now, false);
    if node.read == 0 {
      FirstChanges(plan, out.saved.value, ViewOf(N(plan), s.log[..0]), x.m);
    } else {
      var k := node.read - 1;
      ViewAt(plan, s.log, k);
      var v := ViewOf(N(plan), s.log[..k]);
      DueRank(plan, v, s.log[k]);
      FollowsParts(plan, node.saved.value, v);
      PostPasses(plan, node.saved.value, v, s.log[k], i);
      NextAccepted(env, node.saved.value, x, v.rank);
    }
  }

  lemma FirstChanges(plan: Plan, i: Inst, v: View, m: Message)
    requires plan.init.ProposalRequest? && Follows(plan, i, v)
    ensures i.state != GlobalIdle && Some(i) != Base(None, m)
  {
    hide Inv, Keyed, Invited, InPart, TrimSpace;
  }

  lemma PostPasses(plan: Plan, i: Inst, v: View, b: Post, me: int)
    requires PlanOk(plan) && Follows(plan, i, v) && Due(plan, v, b) && 0 <= me < N(plan)
    ensures Formed(plan, b) && Gate(false, i.payload, For(plan, b, me))
  {
    hide Inv, Invited, InPart, Formed, Proper, Keyed, PlanOk;
    PlanParts(plan);
    Trusted(plan, i.payload, b, me);
  }

  // In a ceremony state, what passes the signature check and is not refused is accepted.
  lemma NextAccepted(env: Env, i: Inst, x: Input, rank: nat)
    requires Inv(i) && 0 < x.now && rank <= 4 && i.state == StateAt(rank) && Gate(x.skip, i.payload, x.m)
    requires Step(env, x.skip, Some(i), x.m, x.now).err.None?
    ensures History.Accepted(env, Some(i), x)
  {
    hide Inv, Step, Gate, Accepts, Result, History.Accepted;
    StepSays(env, x.skip, i, x.m, x.now);
    Admission.NotOver(i);
    Admission.CeremonyIsAccepted(env, i, x);
  }

  lemma ReadRecords(env: Env, plan: Plan, s: Sys, a: Action)
    requires PlanOk(plan) && SysOk(plan, s) && Enabled(plan, s, a) && a.Read? && NodeRecords(plan, s, a.node)
    ensures LogOk(plan, Apply(env, plan, s, a)) && NodeRecords(plan, Apply(env, plan, s, a), a.node)
  {
    hide Step, Formed, Proper, Carries, Orderly, NodeOk, History.Accepted, PlanOk, Provenance.SavedRecords, For,
         Inbox, Outcome;
    var i, node := a.node, s.nodes[a.node];
    AllFormed(plan, s);
    var h :| HeardAll(plan, s.log, i, node.read, h) && Provenance.SavedRecords(node.saved, h);
    ReadAccepts(env, plan, s, a);
    InboxIs(plan, s, i);
    var x := Input(Inbox(plan, s, i)[node.read], a.now, false);
    ReadIs(env, plan, s, a);
    Provenance.StepRecords(env, node.saved, x, h);
    HeardMore(plan, s.log, i, node.read, h, x);
    var s1 := Apply(env, plan, s, a);
    assert Provenance.SavedRecords(s1.nodes[i].saved, h + [FactOf(x)]);
  }

  lemma ReadIs(env: Env, plan: Plan, s: Sys, a: Action)
    requires PlanOk(plan) && LogOk(plan, s) && Enabled(plan, s, a) && a.Read?
    ensures var node, s1 := s.nodes[a.node], Apply(env, plan, s, a);
            && node.read < |Inbox(plan, s, a.node)| && 0 < a.now
            && |s1.nodes| == |s.nodes| && s1.log == s.log && s1.batches == s.batches
            && s1.nodes[a.node].read == node.read + 1
            && s1.nodes[a.node].saved == After(env, node.saved, Input(Inbox(plan, s, a.node)[node.read], a.now, false))
            && forall j | 0 <= j < |s.nodes| && j != a.node :: s1.nodes[j] == s.nodes[j]
  {
    hide Step, Formed, Proper, Carries, Inbox, PlanOk, Assigned;
    InboxIs(plan, s, a.node);
  }

  lemma HeardMore(plan: Plan, log: seq<Post>, i: int, read: nat, h: seq<Fact>, x: Input)
    requires PlanOk(plan) && 0 <= i < N(plan) && (forall k | 0 <= k < |log| :: Formed(plan, log[k])) && read <= |log|
    requires HeardAll(plan, log, i, read, h)
    requires x.m == if read == 0 then InitMessage(plan) else For(plan, log[read - 1], i)
    ensures HeardAll(plan, log, i, read + 1, h + [FactOf(x)])
  {
    hide Formed, For, PlanOk;
    PlanParts(plan);
  }

  // ---------------------------------------------------------------- any action

  lemma HeardOn(plan: Plan, log: seq<Post>, b: Post, i: int, read: nat, h: seq<Fact>)
    requires PlanOk(plan) && 0 <= i < N(plan) && (forall k | 0 <= k < |log| :: Formed(plan, log[k])) && Formed(plan, b)
    requires HeardAll(plan, log, i, read, h)
    ensures HeardAll(plan, log + [b], i, read, h)
  {
    hide Formed, For, PlanOk;
    PlanParts(plan);
    forall k | 1 <= k < read
      ensures h[k].event == For(plan, (log + [b])[k - 1], i).event && h[k].data == For(plan, (log + [b])[k - 1], i).data
    {
      assert (log + [b])[k - 1] == log[k - 1];
    }
  }

  lemma ActionRecords(env: Env, plan: Plan, s: Sys, a: Action)
    requires PlanOk(plan) && SysOk(plan, s) && Enabled(plan, s, a) && AllRecord(plan, s)
    ensures SysOk(plan, Apply(env, plan, s, a)) && AllRecord(plan, Apply(env, plan, s, a))
  {
    hide Formed, Proper, Carries, Orderly, NodeOk, PlanOk, Provenance.SavedRecords, HeardAll, Outcome;
    PlanParts(plan);
    ActionKeeps(env, plan, s, a);
    var s1 := Apply(env, plan, s, a);
    AllFormed(plan, s);
    AllFormed(plan, s1);
    if a.Read? {
      ReadIs(env, plan, s, a);
      ReadRecords(env, plan, s, a);
    }
    forall i | 0 <= i < N(plan)
      ensures NodeRecords(plan, s1, i)
    {
      assert NodeRecords(plan, s, i);
      var h :| HeardAll(plan, s.log, i, s.nodes[i].read, h) && Provenance.SavedRecords(s.nodes[i].saved, h);
      if a.Execute? {
        HeardOn(plan, s.log, a.result, i, s.nodes[i].read, h);
        RecordedBy(plan, s1, i, h);
      } else if i != a.node {
        RecordedBy(plan, s1, i, h);
      }
    }
  }

  lemma {:induction false} FinalRecords(env: Env, plan: Plan, s: Sys, actions: seq<Action>)
    requires PlanOk(plan) && SysOk(plan, s) && AllRecord(plan, s) && Playable(env, plan, s, actions)
    ensures AllRecord(plan, Final(env, plan, s, actions))
    decreases |actions|
  {
    hide PlanOk, NodeOk, LogOk, Orderly, NodeRecords, Enabled, Apply;
    PlanParts(plan);
    if actions != [] {
      ActionRecords(env, plan, s, actions[0]);
      FinalRecords(env, plan, Apply(env, plan, s, actions[0]), actions[1..]);
    }
  }

  // ---------------------------------------------------------------- the public polynomial

  // The polynomial of the last master key that was posted.
  ghost function PostedPoly(log: seq<Post>): Bytes {
    if log == [] then []
    else if log[|log| - 1].duty == Part(MasterKeys) then log[|log| - 1].pubPoly else PostedPoly(log[..|log| - 1])
  }

  lemma {:induction false} HeardPoly(plan: Plan, log: seq<Post>, i: int, h: seq<Fact>)
    requires PlanOk(plan) && 0 <= i < N(plan) && (forall k | 0 <= k < |log| :: Formed(plan, log[k]))
    requires HeardAll(plan, log, i, |log| + 1, h)
    ensures Poly(h) == PostedPoly(log)
    decreases |log|
  {
    hide Formed, PlanOk, For, Poly;
    PlanParts(plan);
    if log == [] {
      OnlyProposal(h);
    } else {
      var n := |log| - 1;
      var rest := h[..n + 1];
      assert forall k | 1 <= k < n + 1 :: rest[k] == h[k] && log[..n][k - 1] == log[k - 1];
      HeardPoly(plan, log[..n], i, rest);
      assert h == rest + [h[n + 1]];
      TimesGrow(rest, h[n + 1]);
      PostSays(plan, log[n], i);
    }
  }

  lemma OnlyProposal(h: seq<Fact>)
    requires |h| == 1 && h[0].event == InitProposal
    ensures Poly(h) == []
  {
    assert h[..0] == [];
  }

  lemma PostSays(plan: Plan, b: Post, i: int)
    requires plan.init.ProposalRequest? && Formed(plan, b) && 0 <= i < N(plan)
    ensures var m := For(plan, b, i);
            && (m.event == DkgConfirm(MasterKeys) <==> b.duty == Part(MasterKeys))
            && (b.duty == Part(MasterKeys) ==> m.data.ConfirmationRequest? && m.data.pubPoly == b.pubPoly)
  {
    hide Formed;
  }

  // At every point of every interleaving each node's round records exactly the messages it has read,
  // that is, all that was posted so far as it has read it; and when nothing is left to read, it holds
  // the polynomial of the last master key posted.
  lemma HonestRunsRecord(env: Env, plan: Plan, actions: seq<Action>)
    requires PlanOk(plan) && Playable(env, plan, Start(plan), actions)
    ensures var e := Final(env, plan, Start(plan), actions);
            && AllRecord(plan, e)
            && (Quiet(e) ==> forall i | 0 <= i < N(plan) ::
                  && e.nodes[i].saved.Some? && e.nodes[i].saved.value.payload.dkg.Some?
                  && e.nodes[i].saved.value.payload.dkg.value.pubPoly == PostedPoly(e.log))
  {
    hide PlanOk, Final, Playable, SysOk, AllRecord, Quiet;
    PlanParts(plan);
    StartRecords(plan);
    FinalRecords(env, plan, Start(plan), actions);
    var e := Final(env, plan, Start(plan), actions);
    if Quiet(e) {
      QuietIsDone(plan, e);
      forall i | 0 <= i < N(plan)
        ensures e.nodes[i].saved.Some? && e.nodes[i].saved.value.payload.dkg.Some?
        ensures e.nodes[i].saved.value.payload.dkg.value.pubPoly == PostedPoly(e.log)
      {
        QuietPoly(plan, e, i);
      }
    }
  }

  lemma QuietPoly(plan: Plan, e: Sys, i: int)
    requires PlanOk(plan) && SysOk(plan, e) && AllRecord(plan, e)
    requires Quiet(e) && 0 <= i < N(plan) && |e.nodes| == N(plan)
    requires e.nodes[i].saved.Some? && e.nodes[i].saved.value.state == SigningIdle
    ensures e.nodes[i].saved.value.payload.dkg.Some?
    ensures e.nodes[i].saved.value.payload.dkg.value.pubPoly == PostedPoly(e.log)
  {
    hide PlanOk, Formed, Proper, Carries, Orderly, HonestRun.Posted, Follows, Records, HeardAll, Poly, PostedPoly,
         Rank;
    PlanParts(plan);
    AllFormed(plan, e);
    assert NodeRecords(plan, e, i);
    var h :| HeardAll(plan, e.log, i, e.nodes[i].read, h) && Provenance.SavedRecords(e.nodes[i].saved, h);
    HeardPoly(plan, e.log, i, h);
    assert NodeOk(plan, e.log, i, e.nodes[i]);
    FollowsParts(plan, e.nodes[i].saved.value, ViewOf(N(plan), e.log[..e.nodes[i].read - 1]));
    HasPoly(plan, e.nodes[i].saved.value, h);
  }

  lemma HasPoly(plan: Plan, i: Inst, h: seq<Fact>)
    requires Records(i, h) && i.state == SigningIdle && Inv(i)
    ensures i.payload.dkg.Some? && i.payload.dkg.value.pubPoly == Poly(h)
  {
    hide OfProposal, Replies, Errors, OfSigning, Poly, Inv, SigningReady, StageOpen, SameRoster, SigningOpen, Clock,
         DkgTime, AsAnswered;
    Parts(i);
  }

  lemma StartRecords(plan: Plan)
    requires PlanOk(plan)
    ensures AllRecord(plan, Start(plan))
  {
    hide PlanOk;
    PlanParts(plan);
    forall i | 0 <= i < N(plan)
      ensures NodeRecords(plan, Start(plan), i)
    {
      var h: seq<Fact> := [];
      assert HeardAll(plan, [], i, 0, h) && Provenance.SavedRecords(None, h);
      RecordedBy(plan, Start(plan), i, h);
    }
  }
}
