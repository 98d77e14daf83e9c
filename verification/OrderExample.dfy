/** Three participants, two of whom agree on the master key: what is stored depends on the order. */
module OrderExample {
  import opened Names
  import opened Payloads
  import opened NodeStep
  import opened RoundInvariant
  import opened Runs
  import opened Preservation
  import opened Confluence
  import opened HonestRun
  import Reachable
  import Steps
  import D = DkgActions

  function Someone(c: char): ParticipantEntry {
    ParticipantEntry([c, c, c], [1, 2, 3, 4, 5, 6, 7, 8, 9, 10], [1, 2, 3, 4, 5, 6, 7, 8, 9, 10])
  }

  // A ceremony of three with threshold two.
  function Plan3(): Plan {
    Plan("dkg", ProposalRequest([Someone('a'), Someone('b'), Someone('c')], 2, 1), [1], 1)
  }

  lemma Plan3Ok()
    ensures PlanOk(Plan3()) && N(Plan3()) == 3
  {
    var ps := Plan3().init.participants;
    assert ps[0].username[0] == 'a' && ps[1].username[0] == 'b' && ps[2].username[0] == 'c';
    assert forall i | 0 <= i < 3 :: ValidEntry(ps[i]);
    assert TrimSpace("dkg") == "dkg";
  }

  ghost function Keys3(): seq<Request> {
    [ ConfirmationRequest(MasterKeys, 0, [1], [], 1),
      ConfirmationRequest(MasterKeys, 1, [1], [], 1),
      ConfirmationRequest(MasterKeys, 2, [2], [], 1) ]
  }

  // The keys are what a round of three awaits when it opens the master-key stage.
  lemma AreFresh(p: Payload)
    requires p.dkg.Some? && Waiting(p.dkg.value.quorum, MasterKeys) == Range(3) && 1 <= p.dkg.value.expiresAt
    ensures Fresh(MasterKeys, p, Keys3())
  {
    var q := p.dkg.value.quorum;
    forall i | 0 <= i < 3
      ensures i in q && q[i].status == Awaiting(MasterKeys)
    {
      assert i in Waiting(q, MasterKeys);
    }
  }

  // Without the first confirmation the other two still disagree.
  lemma NotRobust(q: DkgQuorum)
    requires 1 in q && 2 in q
    ensures !Robust(q, Keys3())
  {
    var rs := Keys3();
    var w := Without(rs, 0);
    assert w == [rs[1], rs[2]];
    var q1 := Put(q, rs[1]);
    var q2 := Put(q1, rs[2]);
    assert w[0] == rs[1] && w[1..] == [rs[2]] && [rs[2]][1..] == [];
    assert Fill(q1, w[1..]) == Fill(q2, w[1..][1..]) && Fill(q2, []) == q2;
    assert q2[1].status == Confirmed(MasterKeys) && q2[2].status == Confirmed(MasterKeys);
    assert Answer(q2[1], MasterKeys) == [1] && Answer(q2[2], MasterKeys) == [2];
    assert D.KeysDiffer(q2);
    assert !Consistent(MasterKeys, q, w);
  }

  // A run brings a node to the master-key stage. From there the same three awaited confirmations,
  // heard in two orders, leave two different quorums.
  lemma OrderCanMatter(env: Env) returns (ins: seq<Input>, p: Payload, a: seq<Request>, b: seq<Request>)
    ensures Clocked(ins) && RoundRun(env, None, ins) == Some(Inst(DkgAwait(MasterKeys), p)) && p.dkg.Some?
    ensures multiset(a) == multiset(Keys3()) == multiset(b) && Fresh(MasterKeys, p, a) && Fresh(MasterKeys, p, b)
    ensures DkgPart(Collect(MasterKeys, Confirmation(MasterKeys, p), a))
         != DkgPart(Collect(MasterKeys, Confirmation(MasterKeys, p), b))
  {
    hide Plan3, Keys3, PlanOk, StageOpen, Fresh, Robust, Collect, SameElements, DkgPart, RoundRun, Reachable.To,
         Follows, Range;
    Plan3Ok();
    PlanParts(Plan3());
    ins := Reachable.To(Plan3(), 4, 0, Plan3().open);
    Reachable.StagesAreReached(env, Plan3(), 4, 0);
    var i := RoundRun(env, None, ins).value;
    p := i.payload;
    AtMasterKeys(Plan3(), i);
    AreFresh(p);
    assert 1 in Waiting(p.dkg.value.quorum, MasterKeys) && 2 in Waiting(p.dkg.value.quorum, MasterKeys);
    NotRobust(p.dkg.value.quorum);
    a, b := FragileOrders(p, Keys3());
  }

  lemma AtMasterKeys(plan: Plan, i: Inst)
    requires PlanOk(plan) && Follows(plan, i, View(4, {}))
    ensures i.state == DkgAwait(MasterKeys) && i.payload.dkg.Some? && StageOpen(i.payload, MasterKeys)
    ensures Waiting(i.payload.dkg.value.quorum, MasterKeys) == Range(N(plan)) && 1 <= i.payload.dkg.value.expiresAt
  {
    hide Inv, Keyed, Waiting, Range, StageOpen, SameRoster, SigningReady, SigningOpen, Valid;
    Steps.Parts(i);
  }
}
