/** One signing batch from its start: the exact threshold, and what is handed to reconstruction. */
module Threshold {
  import opened Collections
  import opened Names
  import opened Payloads
  import opened Ceremony
  import opened NodeStep
  import opened Moves
  import opened RoundInvariant
  import opened Preservation
  import opened Steps
  import History
  import S = SigningActions

  // A participant's answer to a batch: its partial signatures, or an error.
  datatype Reply = Reply(event: Event, request: Request)

  // ---------------------------------------------------------------- running a batch

  ghost function Heard(i: Inst, a: Reply): DoResult {
    Do(i.state, i.payload, a.event, a.request)
  }

  ghost function Advance(i: Inst, a: Reply): Inst {
    match Heard(i, a)
    case Moved(s, p, _) => Inst(s, p)
    case Rejected(_) => i
  }

  ghost function BatchRun(i: Inst, replies: seq<Reply>): Inst {
    if replies == [] then i else Advance(BatchRun(i, replies[..|replies| - 1]), replies[|replies| - 1])
  }

  // The replies that were accepted, in order.
  ghost function Accepted(i: Inst, replies: seq<Reply>): seq<Reply> {
    if replies == [] then []
    else
      var before := replies[..|replies| - 1];
      var last := replies[|replies| - 1];
      Accepted(i, before) + (if Heard(BatchRun(i, before), last).Moved? then [last] else [])
  }

  ghost function Signs(h: seq<Reply>): nat {
    if h == [] then 0 else Signs(h[..|h| - 1]) + if h[|h| - 1].event == PartialSign then 1 else 0
  }

  ghost function Failures(h: seq<Reply>): nat {
    if h == [] then 0 else Failures(h[..|h| - 1]) + if h[|h| - 1].event == PartialSign then 0 else 1
  }

  ghost predicate AllReplies(replies: seq<Reply>) {
    forall k | 0 <= k < |replies| :: IsSign(replies[k].event)
  }

  // ---------------------------------------------------------------- what is stored

  lemma {:induction false} AddedIds(m: map<string, Bytes>, signs: seq<SignEntry>, id: string)
    ensures id in S.AddSigns(m, signs) <==> id in m || exists k :: 0 <= k < |signs| && signs[k].messageId == id
    decreases |signs|
  {
    if signs != [] {
      var first, rest := signs[0], signs[1..];
      assert forall k | 1 <= k < |signs| :: signs[k] == rest[k - 1];
      AddedIds(m[first.messageId := first.sign], rest, id);
      assert S.AddSigns(m, signs) == S.AddSigns(m[first.messageId := first.sign], rest);
      hide S.AddSigns;
      if id == first.messageId {
        assert 0 <= 0 < |signs| && signs[0].messageId == id;
      }
    }
  }

  lemma {:induction false} AddedOthers(m: map<string, Bytes>, signs: seq<SignEntry>, id: string)
    requires id in m && forall k | 0 <= k < |signs| :: signs[k].messageId != id
    ensures id in S.AddSigns(m, signs) && S.AddSigns(m, signs)[id] == m[id]
    decreases |signs|
  {
    if signs != [] {
      var first, rest := signs[0], signs[1..];
      assert forall k | 0 <= k < |rest| :: rest[k] == signs[k + 1];
      AddedOthers(m[first.messageId := first.sign], rest, id);
    }
  }

  // Storing a reply's signatures one by one keeps the last one for each message.
  lemma {:induction false} AddedLast(m: map<string, Bytes>, signs: seq<SignEntry>, k: int)
    requires History.LastFor(signs, k)
    ensures var id := signs[k].messageId; id in S.AddSigns(m, signs) && S.AddSigns(m, signs)[id] == signs[k].sign
    decreases |signs|
  {
    var first, rest := signs[0], signs[1..];
    var m1 := m[first.messageId := first.sign];
    assert forall l | 0 <= l < |rest| :: rest[l] == signs[l + 1];
    if k == 0 {
      AddedOthers(m1, rest, first.messageId);
    } else {
      assert rest[k - 1] == signs[k] && History.LastFor(rest, k - 1);
      AddedLast(m1, rest, k - 1);
    }
  }

  lemma ReplySigns(signs: seq<SignEntry>)
    ensures History.SignsOf(signs, S.AddSigns(map[], signs))
  {
    hide S.AddSigns, History.LastFor;
    var all := S.AddSigns(map[], signs);
    forall id
      ensures id in all <==> exists k :: 0 <= k < |signs| && signs[k].messageId == id
    {
      AddedIds(map[], signs, id);
    }
    forall k | History.LastFor(signs, k)
      ensures 0 <= k < |signs| && signs[k].messageId in all && all[signs[k].messageId] == signs[k].sign
    {
      LastIsThere(signs, k);
      AddedLast(map[], signs, k);
    }
  }

  lemma LastIsThere(signs: seq<SignEntry>, k: int)
    requires History.LastFor(signs, k)
    ensures 0 <= k < |signs|
  {
  }

  // The stored signatures of a participant are those of its accepted reply to this batch.
  ghost predicate FromReplies(q: SigningQuorum, h: seq<Reply>) {
    forall id | id in q && q[id].partialSigns != map[] :: FromReply(id, q[id].partialSigns, h)
  }

  ghost predicate FromReply(id: int, signs: map<string, Bytes>, h: seq<Reply>) {
    exists k :: 0 <= k < |h| && h[k].event == PartialSign && h[k].request.PartialSignsRequest?
      && h[k].request.pid == id && History.SignsOf(h[k].request.signs, signs)
  }

  // The participants have the names they have there.
  ghost predicate SameNames(q: SigningQuorum, q0: SigningQuorum) {
    q.Keys == q0.Keys && forall id | id in q :: q[id].username == q0[id].username
  }

  ghost predicate Running(p0: Payload, h: seq<Reply>, i: Inst) {
    && i.state == SigningAwait && Inv(i)
    && i.payload.signing.Some? && i.payload.sig.Some? && p0.sig.Some? && p0.signing.Some?
    && Signed(i.payload) == Signs(h) && Gaveup(i.payload) == Failures(h)
    && i.payload.threshold == p0.threshold && Size(i.payload) == Size(p0)
    && i.payload.signing.value.batchId == p0.signing.value.batchId
    && i.payload.signing.value.srcPayload == p0.signing.value.srcPayload
    && FromReplies(i.payload.signing.value.quorum, h)
    && SameNames(i.payload.signing.value.quorum, p0.signing.value.quorum)
  }

  // ---------------------------------------------------------------- one reply

  lemma HeardSays(i: Inst, a: Reply)
    requires i.state == SigningAwait && Inv(i) && IsSign(a.event) && i.payload.signing.Some? && i.payload.sig.Some?
    ensures if CanSign(a.event, i.payload, a.request)
            then Heard(i, a) == SignOutcome(a.event, i.payload, a.request) else Heard(i, a).Rejected?
  {
    hide Do, Sign, CanSign, SignOutcome, SigningReady, SigningOpen;
    DoSign(i.payload, a.event, a.request);
    SignSays(a.event, i.payload, a.request);
  }

  lemma OverIsOver(i: Inst, a: Reply)
    requires i.state == SigningCollected || i.state == SigningCanceledByError
    requires IsSign(a.event)
    ensures Heard(i, a).Rejected?
  {
    hide Execute;
  }

  lemma StoredFromReplies(p: Payload, h: seq<Reply>, a: Reply)
    requires p.signing.Some? && p.sig.Some? && FromReplies(p.signing.value.quorum, h) && IsSign(a.event)
    requires CanSign(a.event, p, a.request)
    requires forall id | id in p.signing.value.quorum :: SignerKeeps(p.signing.value.quorum[id])
    ensures FromReplies(SignStored(a.event, p, a.request).signing.value.quorum, h + [a])
  {
    hide Valid, S.AddSigns, History.SignsOf;
    var q, q1, h1 := p.signing.value.quorum, SignStored(a.event, p, a.request).signing.value.quorum, h + [a];
    assert SignerKeeps(q[a.request.pid]);
    forall id | id in q1 && q1[id].partialSigns != map[]
      ensures FromReply(id, q1[id].partialSigns, h1)
    {
      if id == a.request.pid {
        assert h1[|h|] == a;
        ReplySigns(a.request.signs);
      } else {
        assert FromReply(id, q[id].partialSigns, h);
        var k :| 0 <= k < |h| && h[k].event == PartialSign && h[k].request.PartialSignsRequest?
                 && h[k].request.pid == id && History.SignsOf(h[k].request.signs, q[id].partialSigns);
        assert h1[k] == h[k];
      }
    }
  }

  lemma BatchOfStored(e: Event, p: Payload, r: Request)
    requires p.signing.Some? && p.sig.Some? && CanSign(e, p, r)
    ensures var c := SignStored(e, p, r).signing;
            && c.Some? && c.value.batchId == p.signing.value.batchId && c.value.srcPayload == p.signing.value.srcPayload
            && Batch(c.value).CollectedSigns? && Batch(c.value).batchId == c.value.batchId
            && Batch(c.value).srcPayload == c.value.srcPayload
  {
    hide Valid, Signer, SignsList, Sorted, S.Processing;
  }

  // Whoever is in the batch has the name it has in the DKG.
  lemma NamesOfStart(p: Payload, r: Request, j: Inst, e: Event, reply: Request)
    requires p.signing.Some? && p.dkg.Some? && CanStart(r) && j.payload.signing.Some? && j.payload.sig.Some?
    requires SameNames(j.payload.signing.value.quorum, Begun(p, r).payload.signing.value.quorum)
    requires CanSign(e, j.payload, reply)
    ensures var q := SignStored(e, j.payload, reply).signing.value.quorum;
            forall id | id in q :: id in p.dkg.value.quorum && q[id].username == p.dkg.value.quorum[id].username
  {
    hide Valid, S.AddSigns;
  }

  lemma CountsGrow(h: seq<Reply>, a: Reply)
    ensures Signs(h + [a]) == Signs(h) + if a.event == PartialSign then 1 else 0
    ensures Failures(h + [a]) == Failures(h) + if a.event == PartialSign then 0 else 1
  {
    assert (h + [a])[..|h|] == h;
  }

  // The batch so far: running below both limits, or ended on exactly the reply that reached one.
  ghost predicate BatchState(p0: Payload, h: seq<Reply>, i: Inst)
    requires p0.sig.Some?
  {
    var t, n := p0.threshold, Size(p0);
    && Signs(h) + Failures(h) <= n
    && match i.state
       case SigningAwait => Running(p0, h, i) && Signs(h) < t && Failures(h) <= n - t
       case SigningCollected => Signs(h) == t && Failures(h) <= n - t
       case SigningCanceledByError => Signs(h) < t && Failures(h) == n - t + 1
       case _ => false
  }

  lemma DisjointCounts(p: Payload)
    requires p.signing.Some?
    ensures Signed(p) + Gaveup(p) <= |p.signing.value.quorum|
  {
    var q := p.signing.value.quorum;
    var a, b := S.WithStatus(q, SignsConfirmed), S.WithStatus(q, SigningFailed);
    assert a !! b;
    assert |a + b| == |a| + |b|;
    assert a + b <= q.Keys;
    SubsetSize(a + b, q.Keys);
    assert |q.Keys| == |q|;
  }

  lemma ReplyStep(p0: Payload, h: seq<Reply>, i: Inst, a: Reply)
    requires p0.sig.Some? && Running(p0, h, i) && BatchState(p0, h, i)
    requires IsSign(a.event) && CanSign(a.event, i.payload, a.request)
    ensures Heard(i, a).Moved? && BatchState(p0, h + [a], Advance(i, a))
  {
    hide Heard, Inv, CanSign, FromReplies, Signed, Gaveup, S.Processing, Batch, SigningReady, SigningOpen, SignStored,
         SameNames;
    HeardSays(i, a);
    var p := i.payload;
    CountsGrow(h, a);
    AwaitParts(i);
    SignCounts(a.event, p, a.request);
    SignKeeps(a.event, p, a.request);
    StoredFromReplies(p, h, a);
    StoredSame(a.event, p, a.request);
    DisjointCounts(SignStored(a.event, p, a.request));
  }

  // What storing a reply leaves as it was.
  lemma StoredSame(e: Event, p: Payload, r: Request)
    requires p.signing.Some? && p.sig.Some? && CanSign(e, p, r)
    ensures var p1 := SignStored(e, p, r);
            && p1.signing.Some? && p1.sig.Some? && p1.threshold == p.threshold && Size(p1) == Size(p)
            && p1.signing.value.batchId == p.signing.value.batchId
            && p1.signing.value.srcPayload == p.signing.value.srcPayload
            && forall q0 :: SameNames(p.signing.value.quorum, q0) ==> SameNames(p1.signing.value.quorum, q0)
  {
    hide Valid, S.AddSigns;
  }

  lemma AwaitParts(i: Inst)
    requires Inv(i) && i.state == SigningAwait
    ensures i.payload.sig.Some? && i.payload.signing.Some? && SigningReady(i.payload) && SigningOpen(i.payload)
    ensures forall id | id in i.payload.signing.value.quorum :: SignerKeeps(i.payload.signing.value.quorum[id])
    ensures |i.payload.signing.value.quorum| == Size(i.payload)
  {
    hide Inv, SigningReady, SignerKeeps, S.WithStatus;
    Parts(i);
    assert |i.payload.signing.value.quorum| == |i.payload.signing.value.quorum.Keys|
        && Size(i.payload) == |i.payload.sig.value.quorum.Keys|;
  }

  // ---------------------------------------------------------------- the whole batch

  ghost function Begun(p: Payload, r: Request): Inst
    requires p.signing.Some? && p.dkg.Some? && r.SigningStartRequest?
  {
    Inst(SigningAwait, Started(p, r))
  }

  lemma BatchBegins(p: Payload, r: Request)
    requires p.sig.Some? && p.signing.Some? && p.dkg.Some? && SigningReady(p) && CanStart(r)
    ensures Begun(p, r).payload.sig.Some? && BatchState(Begun(p, r).payload, [], Begun(p, r))
  {
    hide Inv, SigningReady, SigningOpen, Signed, Gaveup, Valid;
    StartedKeeps(p, r);
    BatchInv(Started(p, r));
    ReadySizes(p);
  }

  lemma ReadySizes(p: Payload)
    requires SigningReady(p)
    ensures p.sig.Some? && p.dkg.Some? && 2 <= p.threshold <= Size(p)
  {
    hide Finished;
  }

  lemma {:induction false} BatchRunState(p0: Payload, i: Inst, replies: seq<Reply>)
    requires p0.sig.Some? && BatchState(p0, [], i) && AllReplies(replies)
    ensures BatchState(p0, Accepted(i, replies), BatchRun(i, replies))
    decreases |replies|
  {
    hide Heard, Running, Signs, Failures, CanSign, Inv;
    if replies != [] {
      var before, last := replies[..|replies| - 1], replies[|replies| - 1];
      BatchRunState(p0, i, before);
      var j, h := BatchRun(i, before), Accepted(i, before);
      if j.state == SigningAwait {
        RunningParts(p0, h, j);
        HeardSays(j, last);
        if CanSign(last.event, j.payload, last.request) {
          ReplyStep(p0, h, j, last);
        } else {
          assert h + [] == h;
        }
      } else {
        OverIsOver(j, last);
        assert h + [] == h;
      }
    }
  }

  lemma RunningParts(p0: Payload, h: seq<Reply>, i: Inst)
    requires Running(p0, h, i)
    ensures Inv(i) && i.payload.signing.Some? && i.payload.sig.Some?
  {
  }

  // A batch that started with threshold t among N participants, after any replies: it is
  // collected exactly when t were accepted, cancelled exactly when N-t+1 failures were, never
  // both, and still waiting otherwise; once all N have replied it is over.
  lemma ExactThreshold(p: Payload, r: Request, replies: seq<Reply>)
    requires p.sig.Some? && p.signing.Some? && p.dkg.Some? && SigningReady(p) && CanStart(r) && AllReplies(replies)
    ensures var i := Begun(p, r);
            var e, h := BatchRun(i, replies), Accepted(i, replies);
            var t, n := p.threshold, Size(p);
            && (e.state == SigningAwait || e.state == SigningCollected || e.state == SigningCanceledByError)
            && (e.state == SigningCollected <==> Signs(h) == t)
            && (e.state == SigningCanceledByError <==> Failures(h) == n - t + 1)
            && Signs(h) <= t && Failures(h) <= n - t + 1 && Signs(h) + Failures(h) <= n
            && (Signs(h) + Failures(h) == n ==> e.state != SigningAwait)
  {
    hide SigningReady, Running, BatchRun, Accepted, Signs, Failures, Valid;
    BatchBegins(p, r);
    BatchRunState(Begun(p, r).payload, Begun(p, r), replies);
    ReadySizes(p);
  }

  // ---------------------------------------------------------------- the collected signatures

  ghost function SignerIds(es: seq<SignsEntry>): seq<int> {
    seq(|es|, k requires 0 <= k < |es| => es[k].id)
  }

  ghost function Having(ids: seq<int>, q: SigningQuorum): set<int>
    requires Elements(ids) <= q.Keys
  {
    set i | i in Elements(ids) && q[i].partialSigns != map[]
  }

  ghost predicate Holds(e: SignsEntry, ids: set<int>, q: SigningQuorum) {
    e.id in ids && e.id in q && e.signs != map[] && e.signs == q[e.id].partialSigns && e.username == q[e.id].username
  }

  lemma {:induction false} ListHolds(ids: seq<int>, q: SigningQuorum)
    requires Elements(ids) <= q.Keys
    ensures forall e | e in SignsList(ids, q) :: Holds(e, Elements(ids), q)
    decreases |ids|
  {
    if ids != [] {
      assert ids[0] in Elements(ids) && Elements(ids[1..]) <= Elements(ids);
      ListHolds(ids[1..], q);
      forall e | e in SignsList(ids, q)
        ensures Holds(e, Elements(ids), q)
      {
        assert e in SignsList(ids[1..], q) || e == SignsEntry(ids[0], q[ids[0]].username, q[ids[0]].partialSigns);
      }
    }
  }

  lemma HavingCons(ids: seq<int>, q: SigningQuorum)
    requires Elements(ids) <= q.Keys && Ascending(ids) && ids != []
    ensures Elements(ids[1..]) <= q.Keys && ids[0] in q && Ascending(ids[1..])
    ensures forall i | i in Elements(ids[1..]) :: ids[0] < i
    ensures |Having(ids, q)| == |Having(ids[1..], q)| + if q[ids[0]].partialSigns == map[] then 0 else 1
  {
    TailElements(ids);
    assert ids[0] in Elements(ids);
    var rest := ids[1..];
    if q[ids[0]].partialSigns == map[] {
      assert Having(ids, q) == Having(rest, q);
    } else {
      assert Having(ids, q) == Having(rest, q) + {ids[0]} && ids[0] !in Having(rest, q);
    }
  }

  // The list holds, in ascending order, exactly the participants with stored signatures.
  lemma {:induction false} ListExact(ids: seq<int>, q: SigningQuorum)
    requires Elements(ids) <= q.Keys && Ascending(ids)
    ensures Ascending(SignerIds(SignsList(ids, q))) && |SignsList(ids, q)| == |Having(ids, q)|
    decreases |ids|
  {
    hide Having, Elements;
    if ids == [] {
      NobodyHas(q);
    } else {
      HavingCons(ids, q);
      ListExact(ids[1..], q);
      ListHolds(ids[1..], q);
      var list, tail := SignsList(ids, q), SignsList(ids[1..], q);
      if q[ids[0]].partialSigns != map[] {
        assert SignerIds(list) == [ids[0]] + SignerIds(tail);
        assert forall k | 0 <= k < |tail| :: tail[k] in tail && Holds(tail[k], Elements(ids[1..]), q);
      }
    }
  }

  lemma NobodyHas(q: SigningQuorum)
    ensures Elements([]) <= q.Keys && Having([], q) == {}
  {
  }

  // When a batch is collected, reconstruction gets the batch's own id and tasks and exactly t
  // entries in ascending participant order, each holding the signatures of that participant's
  // accepted reply to this batch.
  lemma CollectedBatch(p: Payload, r: Request, replies: seq<Reply>, last: Reply)
    requires p.sig.Some? && p.signing.Some? && p.dkg.Some? && SigningReady(p) && CanStart(r)
    requires AllReplies(replies) && IsSign(last.event)
    requires var i := Begun(p, r);
             var res := Heard(BatchRun(i, replies), last); res.Moved? && res.state == SigningCollected
    ensures var i := Begun(p, r);
            var data, h := Heard(BatchRun(i, replies), last).data, Accepted(i, replies) + [last];
            && data.CollectedSigns? && data.batchId == r.batchId && data.srcPayload == r.tasks
            && |data.signers| == p.threshold && Ascending(SignerIds(data.signers))
            && (forall k | 0 <= k < |data.signers| ::
                  IsReplyOf(data.signers[k], h) && NamedIn(data.signers[k], p.dkg.value.quorum))
  {
    hide SigningReady, BatchRun, Accepted, Signs, Failures, Valid, Heard, Inv, FromReplies, SignsList, Sorted,
         S.Processing, S.AddSigns, Signed, Gaveup, SigningOpen, SignStored, SameNames, CanSign, FromReply,
         S.FreshQuorum, Batch;
    var i := Begun(p, r);
    BatchBegins(p, r);
    BatchRunState(i.payload, i, replies);
    var j, h := BatchRun(i, replies), Accepted(i, replies);
    if j.state != SigningAwait {
      OverIsOver(j, last);
    }
    HeardSays(j, last);
    AwaitParts(j);
    BatchOfStored(last.event, j.payload, last.request);
    StoredFromReplies(j.payload, h, last);
    SignCounts(last.event, j.payload, last.request);
    SignStoredKeeps(last.event, j.payload, last.request);
    BatchList(SignStored(last.event, j.payload, last.request), h + [last]);
    NamesOfStart(p, r, j, last.event, last.request);
  }

  // The entry holds all signatures of an accepted reply.
  ghost predicate IsReplyOf(e: SignsEntry, h: seq<Reply>) {
    FromReply(e.id, e.signs, h)
  }

  // The entry has the name of the participant of the DKG.
  ghost predicate NamedIn(e: SignsEntry, q: DkgQuorum) {
    e.id in q && e.username == q[e.id].username
  }

  lemma BatchList(p: Payload, h: seq<Reply>)
    requires p.signing.Some? && FromReplies(p.signing.value.quorum, h)
    requires forall id | id in p.signing.value.quorum :: SignerKeeps(p.signing.value.quorum[id])
    ensures var data := Batch(p.signing.value);
            && data.CollectedSigns? && |data.signers| == Signed(p) && Ascending(SignerIds(data.signers))
            && (forall k | 0 <= k < |data.signers| ::
                  && IsReplyOf(data.signers[k], h)
                  && data.signers[k].id in p.signing.value.quorum
                  && data.signers[k].username == p.signing.value.quorum[data.signers[k].id].username)
  {
    hide SignsList, S.AddSigns, SignerIds, History.SignsOf;
    var q := p.signing.value.quorum;
    var ids, q1 := Sorted(q.Keys), S.Processing(q);
    ListExact(ids, q1);
    ListHolds(ids, q1);
    hide Sorted;
    assert Having(ids, q1) == S.WithStatus(q, SignsConfirmed) by {
      forall i
        ensures i in Having(ids, q1) <==> i in S.WithStatus(q, SignsConfirmed)
      {
        assert i in q ==> SignerKeeps(q[i]);
      }
    }
    var list := SignsList(ids, q1);
    forall k | 0 <= k < |list|
      ensures IsReplyOf(list[k], h) && list[k].id in q && list[k].username == q[list[k].id].username
    {
      assert list[k] in list && Holds(list[k], Elements(ids), q1);
      assert q1[list[k].id].partialSigns == q[list[k].id].partialSigns;
      assert FromReply(list[k].id, q[list[k].id].partialSigns, h);
    }
  }
}
