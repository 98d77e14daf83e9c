/** The order in which participants confirm a stage does not matter - and exactly when it does. */
module Confluence {
  import opened Names
  import opened Payloads
  import opened Ceremony
  import opened NodeStep
  import opened Moves
  import opened RoundInvariant
  import opened Preservation
  import D = DkgActions

  // ---------------------------------------------------------------- hearing confirmations

  // The DKG machine hears one confirmation; a refused one changes nothing.
  ghost function Hear(stage: Stage, i: Inst, r: Request): Inst {
    match Do(i.state, i.payload, DkgConfirm(stage), r)
    case Moved(s, p, _) => Inst(s, p)
    case Rejected(_) => i
  }

  ghost function Collect(stage: Stage, i: Inst, rs: seq<Request>): Inst
    decreases |rs|
  {
    if rs == [] then i else Collect(stage, Hear(stage, i, rs[0]), rs[1..])
  }

  ghost predicate Distinct(rs: seq<Request>)
    requires forall k | 0 <= k < |rs| :: rs[k].ConfirmationRequest?
  {
    forall j, k | 0 <= j < k < |rs| :: rs[j].pid != rs[k].pid
  }

  // Confirmations of distinct participants that are awaited, and on time.
  ghost predicate Fresh(stage: Stage, p: Payload, rs: seq<Request>) {
    && p.dkg.Some?
    && (forall k | 0 <= k < |rs| :: CanConfirm(stage, p, rs[k]) && rs[k].createdAt <= p.dkg.value.expiresAt)
    && Distinct(rs)
  }

  // ---------------------------------------------------------------- the closed form

  ghost function Put(q: DkgQuorum, r: Request): DkgQuorum
    requires r.ConfirmationRequest?
  {
    if r.pid in q then q[r.pid := D.Answered(q[r.pid], r.stage, r.content, r.createdAt)] else q
  }

  // The quorum with all the confirmations stored.
  ghost function Fill(q: DkgQuorum, rs: seq<Request>): DkgQuorum
    requires forall k | 0 <= k < |rs| :: rs[k].ConfirmationRequest?
    decreases |rs|
  {
    if rs == [] then q else Fill(Put(q, rs[0]), rs[1..])
  }

  ghost function Pids(rs: seq<Request>): set<int>
    requires forall k | 0 <= k < |rs| :: rs[k].ConfirmationRequest?
  {
    set k | 0 <= k < |rs| :: rs[k].pid
  }

  // Each participant's entry in the closed form depends on its own confirmation alone.
  lemma {:induction false} FillAt(q: DkgQuorum, rs: seq<Request>, i: int)
    requires (forall k | 0 <= k < |rs| :: rs[k].ConfirmationRequest? && rs[k].pid in q) && Distinct(rs) && i in q
    ensures Fill(q, rs).Keys == q.Keys
    ensures i !in Pids(rs) ==> Fill(q, rs)[i] == q[i]
    ensures forall k | 0 <= k < |rs| && rs[k].pid == i ::
              Fill(q, rs)[i] == D.Answered(q[i], rs[k].stage, rs[k].content, rs[k].createdAt)
    decreases |rs|
  {
    if rs != [] {
      var q1, rest := Put(q, rs[0]), rs[1..];
      assert q1.Keys == q.Keys;
      assert forall k | 0 <= k < |rest| :: rest[k] == rs[k + 1];
      FillAt(q1, rest, i);
      if rs[0].pid == i {
        assert i !in Pids(rest);
      } else {
        assert i in Pids(rest) ==> i in Pids(rs) by {
          if i in Pids(rest) {
            var k :| 0 <= k < |rest| && rest[k].pid == i;
            assert rs[k + 1].pid == i;
          }
        }
      }
      forall k | 0 <= k < |rs| && rs[k].pid == i
        ensures Fill(q, rs)[i] == D.Answered(q[i], rs[k].stage, rs[k].content, rs[k].createdAt)
      {
        if k > 0 {
          assert rest[k - 1] == rs[k];
        }
      }
    }
  }

  ghost predicate SameElements(rs: seq<Request>, rs': seq<Request>) {
    forall r :: r in rs <==> r in rs'
  }

  lemma SamePids(rs: seq<Request>, rs': seq<Request>)
    requires forall k | 0 <= k < |rs| :: rs[k].ConfirmationRequest?
    requires forall k | 0 <= k < |rs'| :: rs'[k].ConfirmationRequest?
    requires SameElements(rs, rs')
    ensures Pids(rs) == Pids(rs')
  {
    forall i
      ensures i in Pids(rs) <==> i in Pids(rs')
    {
      if i in Pids(rs) {
        var k :| 0 <= k < |rs| && rs[k].pid == i;
        assert rs[k] in rs';
      }
      if i in Pids(rs') {
        var k :| 0 <= k < |rs'| && rs'[k].pid == i;
        assert rs'[k] in rs;
      }
    }
  }

  // Two orderings of the same confirmations fill a quorum alike.
  lemma FillOrder(q: DkgQuorum, rs: seq<Request>, rs': seq<Request>)
    requires forall k | 0 <= k < |rs| :: rs[k].ConfirmationRequest? && rs[k].pid in q
    requires forall k | 0 <= k < |rs'| :: rs'[k].ConfirmationRequest? && rs'[k].pid in q
    requires Distinct(rs) && Distinct(rs') && SameElements(rs, rs')
    ensures Fill(q, rs') == Fill(q, rs)
  {
    SamePids(rs, rs');
    assert (|rs| > 0 ==> rs[0].pid in q) && (|rs'| > 0 ==> rs'[0].pid in q);
    forall i | i in q
      ensures Fill(q, rs).Keys == q.Keys == Fill(q, rs').Keys && Fill(q, rs)[i] == Fill(q, rs')[i]
    {
      FillAt(q, rs, i);
      FillAt(q, rs', i);
      if i in Pids(rs) {
        var k :| 0 <= k < |rs| && rs[k].pid == i;
        assert rs[k] in rs';
        var j :| 0 <= j < |rs'| && rs'[j] == rs[k];
        assert rs'[j].pid == i;
      }
    }
  }

  // ---------------------------------------------------------------- hearing is filling

  lemma FreshTail(stage: Stage, p: Payload, rs: seq<Request>)
    requires Fresh(stage, p, rs) && rs != []
    ensures Fresh(stage, D.Stored(p, rs[0]), rs[1..])
    ensures D.Stored(p, rs[0]).dkg.value.quorum == Put(p.dkg.value.quorum, rs[0])
    ensures D.Stored(p, rs[0]).dkg.value.expiresAt == p.dkg.value.expiresAt
  {
    hide Valid;
    var p1, rest := D.Stored(p, rs[0]), rs[1..];
    assert forall k | 0 <= k < |rest| :: rest[k] == rs[k + 1];
  }

  lemma PidsTail(rs: seq<Request>)
    requires (forall k | 0 <= k < |rs| :: rs[k].ConfirmationRequest?) && Distinct(rs) && rs != []
    ensures Pids(rs[1..]) == Pids(rs) - {rs[0].pid} && rs[0].pid in Pids(rs)
  {
    var rest := rs[1..];
    assert forall k | 0 <= k < |rest| :: rest[k] == rs[k + 1];
    forall i
      ensures i in Pids(rest) <==> i in Pids(rs) && i != rs[0].pid
    {
      if i in Pids(rest) {
        var k :| 0 <= k < |rest| && rest[k].pid == i;
        assert rs[k + 1].pid == i;
      }
      if i in Pids(rs) && i != rs[0].pid {
        var k :| 0 <= k < |rs| && rs[k].pid == i;
        assert rest[k - 1].pid == i;
      }
    }
    assert rs[0].pid in Pids(rs);
  }

  lemma PidsWait(stage: Stage, p: Payload, rs: seq<Request>)
    requires Fresh(stage, p, rs)
    ensures Pids(rs) <= Waiting(p.dkg.value.quorum, stage)
  {
    hide Valid;
  }

  // A clash of master keys does not go away when more keys arrive.
  lemma {:induction false} ClashStays(stage: Stage, q: DkgQuorum, rs: seq<Request>)
    requires forall k | 0 <= k < |rs| ::
               rs[k].ConfirmationRequest? && rs[k].pid in q && q[rs[k].pid].status == Awaiting(stage)
    requires Distinct(rs) && stage == MasterKeys && D.KeysDiffer(q)
    ensures D.KeysDiffer(Fill(q, rs))
  {
    var i, j :| i in q && j in q && q[i].status == Confirmed(MasterKeys) && q[j].status == Confirmed(MasterKeys)
                && Answer(q[i], MasterKeys) != Answer(q[j], MasterKeys);
    assert i !in Pids(rs) && j !in Pids(rs);
    FillAt(q, rs, i);
    FillAt(q, rs, j);
    var f := Fill(q, rs);
    assert i in f && j in f && f[i] == q[i] && f[j] == q[j];
  }

  // No two confirmed master keys differ once the confirmations are in.
  ghost predicate Consistent(stage: Stage, q: DkgQuorum, rs: seq<Request>)
    requires forall k | 0 <= k < |rs| :: rs[k].ConfirmationRequest?
  {
    stage == MasterKeys ==> !D.KeysDiffer(Fill(q, rs))
  }

  ghost function Confirmation(stage: Stage, p: Payload): Inst {
    Inst(DkgAwait(stage), p)
  }

  // What hearing consistent confirmations comes to: all stored, and the stage over when they were
  // the last ones awaited.
  ghost predicate Heard(stage: Stage, q: DkgQuorum, rs: seq<Request>, e: Inst)
    requires forall k | 0 <= k < |rs| :: rs[k].ConfirmationRequest?
  {
    && e.payload.dkg.Some?
    && (if Pids(rs) == Waiting(q, stage)
        then && e.state == StageTarget(stage, DkgConfirmedInternal(stage))
             && e.payload.dkg.value.quorum == D.Restatused(Fill(q, rs), D.Following(stage))
        else && e.state == DkgAwait(stage)
             && e.payload.dkg.value.quorum == Fill(q, rs))
  }

  lemma HearOne(stage: Stage, p: Payload, r: Request)
    requires p.dkg.Some? && StageOpen(p, stage) && CanConfirm(stage, p, r)
    ensures var o := ConfirmOutcome(stage, p, r); Hear(stage, Confirmation(stage, p), r) == Inst(o.state, o.payload)
  {
    hide Do, StageOpen, Confirm, ConfirmOutcome, CanConfirm, Statused;
    DoConfirm(stage, p, r);
    OpenIsStatused(p, stage);
    ConfirmSays(stage, p, r);
  }

  lemma {:induction false} ClosedForm(stage: Stage, p: Payload, rs: seq<Request>)
    requires p.dkg.Some? && StageOpen(p, stage) && Fresh(stage, p, rs) && Consistent(stage, p.dkg.value.quorum, rs)
    ensures Heard(stage, p.dkg.value.quorum, rs, Collect(stage, Confirmation(stage, p), rs))
    decreases |rs|
  {
    hide StageOpen, Hear, D.KeysDiffer, D.Stored, D.Restatused, Put, Valid, D.Collected, D.Mismatched, Distinct;
    var q := p.dkg.value.quorum;
    if rs == [] {
      StillWaiting(stage, p);
    } else {
      var r := rs[0];
      var p1, q1 := D.Stored(p, r), Put(q, r);
      HearOne(stage, p, r);
      FreshTail(stage, p, rs);
      PidsTail(rs);
      PidsWait(stage, p, rs);
      WaitingPut(stage, p, r);
      if stage == MasterKeys && D.KeysDiffer(q1) {
        TailAwaited(stage, p1, rs[1..]);
        ClashStays(stage, q1, rs[1..]);
      }
      if Waiting(q, stage) == {r.pid} {
        assert Pids(rs[1..]) == {};
        NoPids(rs[1..]);
        assert Pids(rs) == {r.pid} && Fill(q, rs) == q1;
        assert Collect(stage, Confirmation(stage, p), rs) == Hear(stage, Confirmation(stage, p), r);
      } else {
        StayOpen(stage, p, r);
        ClosedForm(stage, p1, rs[1..]);
        MinusOne(Pids(rs), Waiting(q, stage), r.pid);
      }
    }
  }

  lemma StillWaiting(stage: Stage, p: Payload)
    requires p.dkg.Some? && StageOpen(p, stage)
    ensures Waiting(p.dkg.value.quorum, stage) != {}
  {
    var i :| i in p.dkg.value.quorum && p.dkg.value.quorum[i].status == Awaiting(stage);
    assert i in Waiting(p.dkg.value.quorum, stage);
  }

  lemma NoPids(rs: seq<Request>)
    requires forall k | 0 <= k < |rs| :: rs[k].ConfirmationRequest?
    ensures Pids(rs) == {} <==> rs == []
  {
    if rs != [] {
      assert rs[0].pid in Pids(rs);
    }
  }

  lemma MinusOne(a: set<int>, b: set<int>, x: int)
    requires x in a && x in b
    ensures a == b <==> a - {x} == b - {x}
  {
    if a - {x} == b - {x} {
      assert a == (a - {x}) + {x} && b == (b - {x}) + {x};
    }
  }

  lemma WaitingPut(stage: Stage, p: Payload, r: Request)
    requires p.dkg.Some? && StageOpen(p, stage) && CanConfirm(stage, p, r)
    ensures Waiting(Put(p.dkg.value.quorum, r), stage) == Waiting(p.dkg.value.quorum, stage) - {r.pid}
    ensures r.pid in Waiting(p.dkg.value.quorum, stage)
  {
    hide StageOpen, Valid;
    OpenIsStatused(p, stage);
    var q := p.dkg.value.quorum;
    QuorumEffect(q, stage, r.pid, D.Answered(q[r.pid], r.stage, r.content, r.createdAt));
  }

  lemma TailAwaited(stage: Stage, p: Payload, rs: seq<Request>)
    requires Fresh(stage, p, rs)
    ensures forall k | 0 <= k < |rs| ::
              rs[k].ConfirmationRequest? && rs[k].pid in p.dkg.value.quorum
              && p.dkg.value.quorum[rs[k].pid].status == Awaiting(stage)
    ensures Distinct(rs)
  {
    hide Valid;
  }

  // ---------------------------------------------------------------- order does not matter

  // Any two orderings of the same awaited, on-time, consistent confirmations of distinct
  // participants end in the same state with the same quorum.
  lemma OrderDoesNotMatter(stage: Stage, p: Payload, rs: seq<Request>, rs': seq<Request>)
    requires p.dkg.Some? && StageOpen(p, stage) && Fresh(stage, p, rs) && Fresh(stage, p, rs') && SameElements(rs, rs')
    requires Consistent(stage, p.dkg.value.quorum, rs)
    ensures var e, e' := Collect(stage, Confirmation(stage, p), rs), Collect(stage, Confirmation(stage, p), rs');
            && e.state == e'.state && e.payload.dkg.Some? && e'.payload.dkg.Some?
            && e.payload.dkg.value.quorum == e'.payload.dkg.value.quorum
  {
    hide StageOpen, Collect, D.KeysDiffer, Valid;
    TailAwaited(stage, p, rs);
    TailAwaited(stage, p, rs');
    FillOrder(p.dkg.value.quorum, rs, rs');
    SamePids(rs, rs');
    ClosedForm(stage, p, rs);
    ClosedForm(stage, p, rs');
  }

  // ---------------------------------------------------------------- clashing master keys

  // Everyone is marked with the mismatch.
  ghost predicate Condemned(q: DkgQuorum, e: Inst) {
    && e.state == DkgCanceledByError(MasterKeys) && e.payload.dkg.Some?
    && e.payload.dkg.value.quorum.Keys == q.Keys
    && forall i | i in q ::
         && e.payload.dkg.value.quorum[i].status == Errored(MasterKeys)
         && e.payload.dkg.value.quorum[i].error == Some(KEY_MISMATCH)
         && e.payload.dkg.value.quorum[i].username == q[i].username
  }

  lemma {:induction false} CancelledHears(stage: Stage, i: Inst, rs: seq<Request>)
    requires i.state == DkgCanceledByError(stage)
    ensures Collect(stage, i, rs) == i
    decreases |rs|
  {
    if rs != [] {
      CancelledHearsOne(stage, i, rs[0]);
      CancelledHears(stage, i, rs[1..]);
    }
    hide Hear;
  }

  lemma CancelledHearsOne(stage: Stage, i: Inst, r: Request)
    requires i.state == DkgCanceledByError(stage)
    ensures Hear(stage, i, r) == i
  {
    hide Execute;
  }

  // The verdict on clashing keys does not depend on the order either.
  lemma {:induction false} ClashIsSeen(p: Payload, rs: seq<Request>)
    requires p.dkg.Some? && StageOpen(p, MasterKeys) && Fresh(MasterKeys, p, rs)
    ensures !Consistent(MasterKeys, p.dkg.value.quorum, rs) ==>
              Condemned(p.dkg.value.quorum, Collect(MasterKeys, Confirmation(MasterKeys, p), rs))
    decreases |rs|
  {
    hide StageOpen, Hear, D.KeysDiffer, D.Stored, D.Restatused, Put, Valid, Distinct, D.Mismatched;
    var q := p.dkg.value.quorum;
    if rs == [] {
      OpenIsConsistent(p);
    } else {
      var r := rs[0];
      var p1, q1 := D.Stored(p, r), Put(q, r);
      HearOne(MasterKeys, p, r);
      FreshTail(MasterKeys, p, rs);
      if D.KeysDiffer(q1) {
        CondemnedAll(q, q1, r);
        CancelledHears(MasterKeys, Hear(MasterKeys, Confirmation(MasterKeys, p), r), rs[1..]);
      } else if Waiting(q, MasterKeys) == {r.pid} {
        PidsTail(rs);
        PidsWait(MasterKeys, p, rs);
        NoPids(rs[1..]);
        assert Fill(q, rs) == q1;
      } else {
        StayOpen(MasterKeys, p, r);
        ClashIsSeen(p1, rs[1..]);
        PutNames(q, r);
      }
    }
  }

  lemma OpenIsConsistent(p: Payload)
    requires p.dkg.Some? && StageOpen(p, MasterKeys)
    ensures Consistent(MasterKeys, p.dkg.value.quorum, [])
  {
    hide D.KeysDiffer, OnTrack;
  }

  lemma CondemnedAll(q: DkgQuorum, q1: DkgQuorum, r: Request)
    requires r.ConfirmationRequest? && q1 == Put(q, r)
    ensures D.Mismatched(q1).Keys == q.Keys
    ensures forall i | i in q :: D.Mismatched(q1)[i].status == Errored(MasterKeys)
              && D.Mismatched(q1)[i].error == Some(KEY_MISMATCH) && D.Mismatched(q1)[i].username == q[i].username
  {
  }

  lemma PutNames(q: DkgQuorum, r: Request)
    requires r.ConfirmationRequest?
    ensures Put(q, r).Keys == q.Keys && forall i | i in q :: Put(q, r)[i].username == q[i].username
  {
  }

  // ---------------------------------------------------------------- exactly when order matters

  ghost function Without(rs: seq<Request>, k: nat): seq<Request>
    requires k < |rs|
  {
    rs[..k] + rs[k + 1..]
  }

  // Leaving out any one confirmation leaves consistent keys.
  ghost predicate Robust(q: DkgQuorum, rs: seq<Request>)
    requires forall k | 0 <= k < |rs| :: rs[k].ConfirmationRequest?
  {
    forall k | 0 <= k < |rs| :: Consistent(MasterKeys, q, Without(rs, k))
  }

  lemma FreshWithout(stage: Stage, p: Payload, rs: seq<Request>, k: nat)
    requires Fresh(stage, p, rs) && k < |rs|
    ensures Fresh(stage, p, Without(rs, k)) && rs[k].pid !in Pids(Without(rs, k))
    ensures SameElements(rs, Without(rs, k) + [rs[k]]) && SameElements(rs, [rs[k]] + Without(rs, k))
    ensures Fresh(stage, p, Without(rs, k) + [rs[k]]) && Fresh(stage, p, [rs[k]] + Without(rs, k))
  {
    hide Fresh, SameElements, Pids, Without;
    StillFresh(stage, p, rs, k);
    SameWithout(rs, k);
    FreshWith(stage, p, Without(rs, k), rs[k]);
  }

  lemma StillFresh(stage: Stage, p: Payload, rs: seq<Request>, k: nat)
    requires Fresh(stage, p, rs) && k < |rs|
    ensures Fresh(stage, p, Without(rs, k)) && rs[k].ConfirmationRequest? && rs[k].pid !in Pids(Without(rs, k))
    ensures CanConfirm(stage, p, rs[k]) && rs[k].createdAt <= p.dkg.value.expiresAt
  {
    hide Valid;
    var w := Without(rs, k);
    assert forall j | 0 <= j < |w| :: w[j] == rs[if j < k then j else j + 1];
  }

  lemma SameWithout(rs: seq<Request>, k: nat)
    requires k < |rs|
    ensures SameElements(rs, Without(rs, k) + [rs[k]]) && SameElements(rs, [rs[k]] + Without(rs, k))
  {
    var w := Without(rs, k);
    assert rs == rs[..k] + [rs[k]] + rs[k + 1..];
    forall r
      ensures r in rs <==> r in w || r == rs[k]
    {
      assert r in w <==> r in rs[..k] || r in rs[k + 1..];
    }
  }

  lemma SameMultiset(rs: seq<Request>, k: nat)
    requires k < |rs|
    ensures multiset(Without(rs, k) + [rs[k]]) == multiset(rs) == multiset([rs[k]] + Without(rs, k))
  {
    assert rs == rs[..k] + [rs[k]] + rs[k + 1..];
  }

  lemma FreshWith(stage: Stage, p: Payload, w: seq<Request>, r: Request)
    requires Fresh(stage, p, w) && r.ConfirmationRequest? && r.pid !in Pids(w)
    requires CanConfirm(stage, p, r) && r.createdAt <= p.dkg.value.expiresAt
    ensures Fresh(stage, p, w + [r]) && Fresh(stage, p, [r] + w)
  {
    hide CanConfirm;
    FreshAreConfirmations(stage, p, w);
    forall j | 0 <= j < |w|
      ensures w[j].pid != r.pid
    {
      assert w[j].pid in Pids(w);
    }
    var b := [r] + w;
    assert forall j | 1 <= j < |b| :: b[j] == w[j - 1];
  }

  lemma FreshAreConfirmations(stage: Stage, p: Payload, rs: seq<Request>)
    requires Fresh(stage, p, rs)
    ensures forall k | 0 <= k < |rs| :: rs[k].ConfirmationRequest?
  {
    hide Valid;
  }

  lemma {:induction false} LateClash(p: Payload, rs: seq<Request>)
    requires p.dkg.Some? && StageOpen(p, MasterKeys) && Fresh(MasterKeys, p, rs) && rs != []
    requires Consistent(MasterKeys, p.dkg.value.quorum, rs[..|rs| - 1])
    ensures !Consistent(MasterKeys, p.dkg.value.quorum, rs) ==>
              var e := Collect(MasterKeys, Confirmation(MasterKeys, p), rs);
              e.payload.dkg.Some? && e.payload.dkg.value.quorum == D.Mismatched(Fill(p.dkg.value.quorum, rs))
    decreases |rs|
  {
    hide StageOpen, Hear, D.KeysDiffer, D.Stored, D.Restatused, Put, Valid, Distinct, D.Mismatched;
    var q, r, rest := p.dkg.value.quorum, rs[0], rs[1..];
    var p1, q1 := D.Stored(p, r), Put(q, r);
    HearOne(MasterKeys, p, r);
    FreshTail(MasterKeys, p, rs);
    if rest == [] {
      assert Fill(q, rs) == q1;
      assert Collect(MasterKeys, Confirmation(MasterKeys, p), rs) == Hear(MasterKeys, Confirmation(MasterKeys, p), r);
    } else {
      var init := rs[..|rs| - 1];
      assert init[0] == r && init[1..] == rest[..|rest| - 1];
      FreshInit(MasterKeys, p1, rest);
      TailAwaited(MasterKeys, p1, rest[..|rest| - 1]);
      if D.KeysDiffer(q1) {
        ClashStays(MasterKeys, q1, rest[..|rest| - 1]);
      }
      PidsTail(rs);
      PidsWait(MasterKeys, p, rs);
      NoPids(rest);
      assert Waiting(q, MasterKeys) != {r.pid};
      StayOpen(MasterKeys, p, r);
      LateClash(p1, rest);
    }
  }

  lemma FreshInit(stage: Stage, p: Payload, rs: seq<Request>)
    requires Fresh(stage, p, rs) && rs != []
    ensures Fresh(stage, p, rs[..|rs| - 1])
  {
    hide CanConfirm;
  }

  // Robust confirmations end the same in every order, even when the keys clash.
  lemma RobustOrders(p: Payload, rs: seq<Request>, rs': seq<Request>)
    requires p.dkg.Some? && StageOpen(p, MasterKeys) && Fresh(MasterKeys, p, rs) && Fresh(MasterKeys, p, rs')
    requires SameElements(rs, rs') && Robust(p.dkg.value.quorum, rs)
    ensures var e := Collect(MasterKeys, Confirmation(MasterKeys, p), rs);
            var e' := Collect(MasterKeys, Confirmation(MasterKeys, p), rs');
            && e.state == e'.state && e.payload.dkg.Some? && e'.payload.dkg.Some?
            && e.payload.dkg.value.quorum == e'.payload.dkg.value.quorum
  {
    hide StageOpen, Collect, D.KeysDiffer, Valid, D.Mismatched;
    var q := p.dkg.value.quorum;
    TailAwaited(MasterKeys, p, rs);
    TailAwaited(MasterKeys, p, rs');
    FillOrder(q, rs, rs');
    if Consistent(MasterKeys, q, rs) {
      OrderDoesNotMatter(MasterKeys, p, rs, rs');
    } else {
      ClashIsSeen(p, rs);
      ClashIsSeen(p, rs');
      ClashIsHeard(p, rs);
      ClashIsHeard(p, rs');
      LastLeftOut(p, rs, rs);
      LastLeftOut(p, rs, rs');
      LateClash(p, rs);
      LateClash(p, rs');
    }
  }

  // Without confirmations nothing clashes.
  lemma ClashIsHeard(p: Payload, rs: seq<Request>)
    requires p.dkg.Some? && StageOpen(p, MasterKeys) && (forall k | 0 <= k < |rs| :: rs[k].ConfirmationRequest?)
    requires !Consistent(MasterKeys, p.dkg.value.quorum, rs)
    ensures rs != []
  {
    hide StageOpen, D.KeysDiffer;
    OpenIsConsistent(p);
  }

  lemma LastLeftOut(p: Payload, rs: seq<Request>, rs': seq<Request>)
    requires Fresh(MasterKeys, p, rs) && Fresh(MasterKeys, p, rs') && SameElements(rs, rs')
    requires Robust(p.dkg.value.quorum, rs) && rs' != []
    ensures Consistent(MasterKeys, p.dkg.value.quorum, rs'[..|rs'| - 1])
  {
    hide CanConfirm, D.KeysDiffer, Fill;
    var q, init, last := p.dkg.value.quorum, rs'[..|rs'| - 1], rs'[|rs'| - 1];
    assert rs' == init + [last];
    assert last in rs;
    var k :| 0 <= k < |rs| && rs[k] == last;
    FreshWithout(MasterKeys, p, rs, k);
    FreshInit(MasterKeys, p, rs');
    var w := Without(rs, k);
    TailAwaited(MasterKeys, p, init);
    TailAwaited(MasterKeys, p, w);
    TailAwaited(MasterKeys, p, rs');
    forall r
      ensures r in init <==> r in w
    {
      assert r in rs' <==> r in init || r == last;
      assert r in w + [rs[k]] <==> r in w || r == rs[k];
      if r == last {
        NotTwice(rs', last);
      }
    }
    FillOrder(q, init, w);
  }

  lemma NotTwice(rs: seq<Request>, last: Request)
    requires forall k | 0 <= k < |rs| :: rs[k].ConfirmationRequest?
    requires Distinct(rs) && rs != [] && last == rs[|rs| - 1]
    ensures last !in rs[..|rs| - 1]
  {
  }

  // Hearing others leaves a participant's stored master key alone.
  lemma SettleKeepsAnswer(stage: Stage, p: Payload, id: int)
    requires p.dkg.Some? && id in p.dkg.value.quorum
    ensures var res := SettleStage(stage, p, NoData);
            res.Moved? ==> res.payload.dkg.Some? && id in res.payload.dkg.value.quorum
                           && Answer(res.payload.dkg.value.quorum[id], MasterKeys)
                             == Answer(p.dkg.value.quorum[id], MasterKeys)
  {
    hide D.Collected, D.AnyErrored, D.AllConfirmed, D.KeysDiffer;
  }

  lemma HearKeepsAnswer(stage: Stage, i: Inst, r: Request, id: int)
    requires i.payload.dkg.Some? && id in i.payload.dkg.value.quorum && r.ConfirmationRequest? && r.pid != id
    ensures var e := Hear(stage, i, r);
            && e.payload.dkg.Some? && id in e.payload.dkg.value.quorum
            && Answer(e.payload.dkg.value.quorum[id], MasterKeys) == Answer(i.payload.dkg.value.quorum[id], MasterKeys)
  {
    hide Do, Answer;
    if i.state == DkgAwait(stage) {
      ConfirmKeepsAnswer(stage, i.payload, r, id);
      DoConfirm(stage, i.payload, r);
    } else {
      NotHeardElsewhere(stage, i, r);
    }
  }

  lemma ConfirmKeepsAnswer(stage: Stage, p: Payload, r: Request, id: int)
    requires p.dkg.Some? && id in p.dkg.value.quorum && r.ConfirmationRequest? && r.pid != id
    ensures var res := Confirm(stage, p, r);
            res.Moved? ==> res.payload.dkg.Some? && id in res.payload.dkg.value.quorum
                           && Answer(res.payload.dkg.value.quorum[id], MasterKeys)
                             == Answer(p.dkg.value.quorum[id], MasterKeys)
  {
    hide SettleStage, Answer, Valid;
    var res := D.Receive(stage, p, r);
    if res.Reply? {
      SettleKeepsAnswer(stage, res.payload, id);
    }
  }

  lemma NotHeardElsewhere(stage: Stage, i: Inst, r: Request)
    requires i.state != DkgAwait(stage)
    ensures Hear(stage, i, r) == i
  {
    hide Execute;
  }

  lemma {:induction false} CollectKeepsAnswer(stage: Stage, i: Inst, rs: seq<Request>, id: int)
    requires i.payload.dkg.Some? && id in i.payload.dkg.value.quorum
    requires (forall k | 0 <= k < |rs| :: rs[k].ConfirmationRequest?) && id !in Pids(rs)
    ensures var e := Collect(stage, i, rs);
            && e.payload.dkg.Some? && id in e.payload.dkg.value.quorum
            && Answer(e.payload.dkg.value.quorum[id], MasterKeys) == Answer(i.payload.dkg.value.quorum[id], MasterKeys)
    decreases |rs|
  {
    hide Hear, Answer;
    if rs != [] {
      assert rs[0].pid in Pids(rs);
      HearKeepsAnswer(stage, i, rs[0], id);
      forall k | 0 <= k < |rs[1..]|
        ensures rs[1..][k] == rs[k + 1] && rs[1..][k].pid != id
      {
        assert rs[k + 1].pid in Pids(rs);
      }
      CollectKeepsAnswer(stage, Hear(stage, i, rs[0]), rs[1..], id);
    }
  }

  lemma {:induction false} CollectSplits(stage: Stage, i: Inst, a: seq<Request>, b: seq<Request>)
    ensures Collect(stage, i, a + b) == Collect(stage, Collect(stage, i, a), b)
    decreases |a|
  {
    hide Hear;
    if a == [] {
      assert a + b == b;
    } else {
      assert (a + b)[0] == a[0] && (a + b)[1..] == a[1..] + b;
      CollectSplits(stage, Hear(stage, i, a[0]), a[1..], b);
    }
  }

  lemma HeardFirst(p: Payload, r: Request)
    requires p.dkg.Some? && StageOpen(p, MasterKeys) && CanConfirm(MasterKeys, p, r)
    requires r.createdAt <= p.dkg.value.expiresAt
    ensures var e := Hear(MasterKeys, Confirmation(MasterKeys, p), r);
            && e.payload.dkg.Some? && r.pid in e.payload.dkg.value.quorum
            && Answer(e.payload.dkg.value.quorum[r.pid], MasterKeys) == r.content != []
  {
    hide Hear, StageOpen, D.KeysDiffer, Waiting;
    HearOne(MasterKeys, p, r);
  }

  // Otherwise some two orders store different keys: the one left out is heard first or too late.
  lemma FragileOrders(p: Payload, rs: seq<Request>) returns (a: seq<Request>, b: seq<Request>)
    requires p.dkg.Some? && StageOpen(p, MasterKeys) && Fresh(MasterKeys, p, rs) && !Robust(p.dkg.value.quorum, rs)
    ensures Fresh(MasterKeys, p, a) && Fresh(MasterKeys, p, b) && SameElements(rs, a) && SameElements(rs, b)
    ensures multiset(a) == multiset(rs) == multiset(b)
    ensures DkgPart(Collect(MasterKeys, Confirmation(MasterKeys, p), a))
         != DkgPart(Collect(MasterKeys, Confirmation(MasterKeys, p), b))
  {
    hide StageOpen, D.KeysDiffer, Valid, Collect, Hear, Distinct, Fill, Answer;
    var k :| 0 <= k < |rs| && !Consistent(MasterKeys, p.dkg.value.quorum, Without(rs, k));
    var r, w := rs[k], Without(rs, k);
    FreshWithout(MasterKeys, p, rs, k);
    a, b := w + [r], [r] + w;
    SameMultiset(rs, k);
    ClashIsSeen(p, w);
    var i := Confirmation(MasterKeys, p);
    CollectSplits(MasterKeys, i, w, [r]);
    CancelledHears(MasterKeys, Collect(MasterKeys, i, w), [r]);
    CollectKeepsAnswer(MasterKeys, i, w, r.pid);
    AwaitedHasNone(p, r);
    CollectHead(MasterKeys, i, r, w);
    HeardFirst(p, r);
    CollectKeepsAnswer(MasterKeys, Hear(MasterKeys, i, r), w, r.pid);
  }

  lemma CollectHead(stage: Stage, i: Inst, r: Request, w: seq<Request>)
    ensures Collect(stage, i, [r] + w) == Collect(stage, Hear(stage, i, r), w)
  {
    hide Hear;
    assert ([r] + w)[0] == r && ([r] + w)[1..] == w;
  }

  lemma AwaitedHasNone(p: Payload, r: Request)
    requires p.dkg.Some? && StageOpen(p, MasterKeys) && CanConfirm(MasterKeys, p, r)
    ensures Answer(p.dkg.value.quorum[r.pid], MasterKeys) == []
  {
    hide D.KeysDiffer, Answer, Valid;
    assert OnTrack(p.dkg.value.quorum[r.pid], MasterKeys, p.dkg.value.expiresAt);
  }

  // The master-key stage ends the same in every order exactly when the keys are robust.
  lemma OrderMattersExactly(p: Payload, rs: seq<Request>)
    requires p.dkg.Some? && StageOpen(p, MasterKeys) && Fresh(MasterKeys, p, rs)
    ensures Robust(p.dkg.value.quorum, rs) <==>
            forall rs' | Fresh(MasterKeys, p, rs') && SameElements(rs, rs') ::
              DkgPart(Collect(MasterKeys, Confirmation(MasterKeys, p), rs'))
                == DkgPart(Collect(MasterKeys, Confirmation(MasterKeys, p), rs))
  {
    hide StageOpen, Collect, D.KeysDiffer, Fresh, SameElements, Robust;
    TailAwaited(MasterKeys, p, rs);
    if Robust(p.dkg.value.quorum, rs) {
      forall rs' | Fresh(MasterKeys, p, rs') && SameElements(rs, rs')
        ensures DkgPart(Collect(MasterKeys, Confirmation(MasterKeys, p), rs'))
                == DkgPart(Collect(MasterKeys, Confirmation(MasterKeys, p), rs))
      {
        RobustOrders(p, rs, rs');
      }
    } else {
      var a, b := FragileOrders(p, rs);
    }
  }

  // State and quorum, without the time of the last answer and the last public polynomial.
  ghost function DkgPart(i: Inst): (State, Option<DkgQuorum>) {
    (i.state, if i.payload.dkg.None? then None else Some(i.payload.dkg.value.quorum))
  }
}
