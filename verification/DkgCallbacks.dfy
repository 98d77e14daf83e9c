/** The callbacks of the DKG machine, updating the payload in place. */
module DkgCallbacks {
  import opened Collections
  import opened Names
  import opened Payloads
  import opened RoundState
  import A = DkgActions

  method Keys(q: DkgQuorum) returns (out: seq<Entry>)
    ensures out == KeyList(Sorted(q.Keys), q)
  {
    hide Sorted;
    var ids := OrderedIds(q.Keys);
    out := [];
    assert ids[0..] == ids;
    for k := 0 to |ids|
      invariant Elements(ids[k..]) <= q.Keys
      invariant out + KeyList(ids[k..], q) == KeyList(ids, q)
    {
      RestOf(ids, k);
      if k + 1 < |ids| {
        RestOf(ids, k + 1);
      }
      out := out + [Entry(ids[k], q[ids[k]].username, q[ids[k]].dkgPubKey)];
    }
  }

  // The answers of a stage in id order; participants without a deal are left out.
  method Answers(q: DkgQuorum, stage: Stage) returns (out: seq<Entry>)
    ensures out == AnswerList(Sorted(q.Keys), q, stage)
  {
    hide Sorted, AnswerList, Answer;
    var ids := OrderedIds(q.Keys);
    out := [];
    assert ids[0..] == ids;
    for k := 0 to |ids|
      invariant Elements(ids[k..]) <= q.Keys
      invariant out + AnswerList(ids[k..], q, stage) == AnswerList(ids, q, stage)
    {
      AnswerStep(ids, k, q, stage);
      var answer := Answer(q[ids[k]], stage);
      if stage == Deals && answer == [] {
        continue;
      }
      out := out + [Entry(ids[k], q[ids[k]].username, answer)];
    }
    assert ids[|ids|..] == [];
    NoAnswers(q, stage);
  }

  lemma NoAnswers(q: DkgQuorum, stage: Stage)
    ensures AnswerList([], q, stage) == []
  {
  }

  lemma AnswerStep(ids: seq<int>, k: nat, q: DkgQuorum, stage: Stage)
    requires k < |ids| && Elements(ids[k..]) <= q.Keys
    ensures ids[k] in q && Elements(ids[k + 1..]) <= q.Keys
    ensures AnswerList(ids[k..], q, stage) ==
            var answer := Answer(q[ids[k]], stage);
            (if stage == Deals && answer == [] then [] else [Entry(ids[k], q[ids[k]].username, answer)])
            + AnswerList(ids[k + 1..], q, stage)
  {
    hide Answer;
    RestOf(ids, k);
    assert ids[k..][0] in Elements(ids[k..]);
    assert forall x | x in ids[k + 1..] :: x in ids[k..];
  }

  // Starts the quorum from the participants of the proposal, in no particular order.
  method Enlist(sq: SigQuorum) returns (q: DkgQuorum)
    ensures q == A.FromProposal(sq)
  {
    q := map[];
    var todo := sq.Keys;
    while todo != {}
      invariant todo <= sq.Keys && q.Keys == sq.Keys - todo
      invariant forall id | id in q :: q[id] == A.FromProposal(sq)[id]
      decreases |todo|
    {
      ghost var some := SomeOf(todo);
      var id :| id in todo;
      q := q[id := DkgParticipant(sq[id].username, sq[id].dkgPubKey, map[], Awaiting(Commits), None, sq[id].updatedAt)];
      todo := todo - {id};
    }
    SameMaps(q, A.FromProposal(sq));
  }

  method Init(m: Round, r: Request) returns (out: Event, data: Data, err: Option<Error>)
    modifies m
    ensures Told(A.Init(old(m.payload), r), old(m.payload), m.payload, out, data, err)
  {
    hide Sorted, KeyList, A.FromProposal;
    out, data, err := NoEvent, NoData, None;
    if m.payload.dkg.Some? {
      return;
    }
    if !r.DefaultRequest? {
      return out, data, Some(BadArgument);
    }
    m.payload := m.payload.(dkg := Some(DkgConfirmation(map[], r.createdAt, 0, r.createdAt + DKG_DEADLINE, [])));
    if m.payload.sig.None? {
      return out, data, Some(NilDereference);
    }
    var sq := m.payload.sig.value.quorum;
    var q := Enlist(sq);
    m.payload := m.payload.(dkg := Some(m.payload.dkg.value.(quorum := q)));
    var threshold := 0;
    if sq != map[] {
      if 0 !in sq {
        return out, data, Some(NilDereference);
      }
      threshold := sq[0].threshold;
    }
    var entries := Keys(q);
    return DkgInit, StageInput(Commits, threshold, entries), None;
  }

  // A participant's answer to a stage.
  method Receive(m: Round, stage: Stage, r: Request) returns (out: Event, data: Data, err: Option<Error>)
    modifies m
    ensures Told(A.Receive(stage, old(m.payload), r), old(m.payload), m.payload, out, data, err)
  {
    hide Valid;
    out, data, err := NoEvent, NoData, None;
    if !(r.ConfirmationRequest? && r.stage == stage) {
      return out, data, Some(BadArgument);
    }
    var ok := ValidateRequest(r);
    if !ok {
      return out, data, Some(InvalidRequest);
    }
    if m.payload.dkg.None? {
      return out, data, Some(NilDereference);
    }
    var q := m.payload.dkg.value.quorum;
    if r.pid !in q {
      return out, data, Some(UnknownParticipant);
    }
    var participant := q[r.pid];
    if participant.status != Awaiting(stage) {
      return out, data, Some(WrongStatus);
    }
    participant := participant.(answers := participant.answers[stage := r.content]);
    participant := participant.(status := Confirmed(stage));
    participant := participant.(updatedAt := r.createdAt);
    m.payload := m.payload.(dkg := Some(m.payload.dkg.value.(updatedAt := r.createdAt)));
    if stage == MasterKeys {
      m.payload := m.payload.(dkg := Some(m.payload.dkg.value.(pubPoly := r.pubPoly)));
    }
    m.payload := m.payload.(dkg := Some(m.payload.dkg.value.(quorum := q[r.pid := participant])));
    assert m.payload == A.Stored(old(m.payload), r);
  }

  // The confirmed answers among some participants.
  ghost predicate Gathered(answers: seq<Bytes>, q: DkgQuorum, ids: set<int>, stage: Stage)
    requires ids <= q.Keys
  {
    forall bz :: bz in answers <==>
      exists id :: id in ids && q[id].status == Confirmed(stage) && Answer(q[id], stage) == bz
  }

  lemma GatheredMore(answers: seq<Bytes>, q: DkgQuorum, ids: set<int>, stage: Stage, id: int)
    requires ids <= q.Keys && Gathered(answers, q, ids, stage) && id in q
    ensures Gathered(if q[id].status == Confirmed(stage) then answers + [Answer(q[id], stage)] else answers,
                     q, ids + {id}, stage)
  {
    hide Answer;
    var more := if q[id].status == Confirmed(stage) then answers + [Answer(q[id], stage)] else answers;
    forall bz
      ensures bz in more <==>
                exists i :: i in ids + {id} && q[i].status == Confirmed(stage) && Answer(q[i], stage) == bz
    {
      if bz in answers {
        var i :| i in ids && q[i].status == Confirmed(stage) && Answer(q[i], stage) == bz;
        assert i in ids + {id};
      }
      if bz in more && bz !in answers {
        assert id in ids + {id};
      }
    }
  }

  // Counts the participants that have not confirmed, looks for an error, and collects the
  // confirmed answers in the order it meets them.
  method Tally(q: DkgQuorum, stage: Stage) returns (unconfirmed: nat, errored: bool, answers: seq<Bytes>)
    ensures unconfirmed == 0 <==> A.AllConfirmed(q, stage)
    ensures errored <==> A.AnyErrored(q, stage)
    ensures Gathered(answers, q, q.Keys, stage)
  {
    hide Gathered, Answer, A.AllConfirmed, A.AnyErrored, Counted;
    unconfirmed, errored, answers := |q.Keys|, false, [];
    var todo := q.Keys;
    ghost var done: set<int>, others: set<int> := {}, {};
    GatheredNone(q, stage);
    CountedNone(q, stage);
    while todo != {}
      invariant todo + done == q.Keys && todo !! done
      invariant Counted(q, stage, done, others, errored) && unconfirmed == |todo| + |others|
      invariant Gathered(answers, q, done, stage)
      decreases |todo|
    {
      ghost var some := SomeOf(todo);
      var id :| id in todo;
      var status := q[id].status;
      GatheredMore(answers, q, done, stage, id);
      CountedMore(q, stage, done, others, errored, id);
      TakenOut(todo, done, others, id);
      todo, done := todo - {id}, done + {id};
      if status == Errored(stage) {
        errored := true;
        others := others + {id};
      } else if status == Confirmed(stage) {
        answers := answers + [Answer(q[id], stage)];
        unconfirmed := unconfirmed - 1;
      } else {
        others := others + {id};
      }
    }
    assert done == q.Keys;
    CountedAll(q, stage, others, errored);
  }

  // The unconfirmed among some participants, and whether one of those reported an error.
  ghost predicate Counted(q: DkgQuorum, stage: Stage, done: set<int>, others: set<int>, errored: bool)
    requires done <= q.Keys
  {
    && others <= done
    && (forall id | id in done :: id in others <==> q[id].status != Confirmed(stage))
    && (errored <==> exists id :: id in done && q[id].status == Errored(stage))
  }

  lemma CountedNone(q: DkgQuorum, stage: Stage)
    ensures Counted(q, stage, {}, {}, false)
  {
  }

  lemma CountedMore(q: DkgQuorum, stage: Stage, done: set<int>, others: set<int>, errored: bool, id: int)
    requires done <= q.Keys && Counted(q, stage, done, others, errored) && id in q && id !in done
    ensures others <= done
    ensures Counted(q, stage, done + {id}, if q[id].status == Confirmed(stage) then others else others + {id},
                    errored || q[id].status == Errored(stage))
  {
    if errored {
      var i :| i in done && q[i].status == Errored(stage);
      assert i in done + {id};
    }
    if q[id].status == Errored(stage) {
      assert id in done + {id};
    }
  }

  lemma CountedAll(q: DkgQuorum, stage: Stage, others: set<int>, errored: bool)
    requires Counted(q, stage, q.Keys, others, errored)
    ensures |others| == 0 <==> A.AllConfirmed(q, stage)
    ensures A.AnyErrored(q, stage) <==> errored
  {
    if others != {} {
      ghost var some := SomeOf(others);
    }
  }

  lemma GatheredNone(q: DkgQuorum, stage: Stage)
    ensures Gathered([], q, {}, stage)
  {
  }

  // Sets the status, and a report if there is one, of all participants.
  method SetAll(q: DkgQuorum, status: DkgStatus, report: Option<string>) returns (r: DkgQuorum)
    ensures r.Keys == q.Keys
    ensures forall id | id in q ::
              r[id] == q[id].(status := status, error := if report.Some? then report else q[id].error)
  {
    r := q;
    var todo := q.Keys;
    while todo != {}
      invariant todo <= q.Keys && r.Keys == q.Keys
      invariant forall id | id in q ::
                  r[id] == if id in todo then q[id]
                           else q[id].(status := status, error := if report.Some? then report else q[id].error)
      decreases |todo|
    {
      ghost var some := SomeOf(todo);
      var id :| id in todo;
      r := r[id := r[id].(status := status)];
      if report.Some? {
        r := r[id := r[id].(error := report)];
      }
      todo := todo - {id};
    }
  }

  // Compares every collected key with the first.
  method Mismatch(keys: seq<Bytes>) returns (found: bool)
    ensures found <==> exists i :: 0 <= i < |keys| && keys[i] != keys[0]
  {
    for i := 0 to |keys|
      invariant forall j | 0 <= j < i :: keys[j] == keys[0]
    {
      if keys[i] != keys[0] {
        return true;
      }
    }
    return false;
  }

  // The comparison with the first key finds a mismatch exactly when two confirmed keys differ,
  // in whatever order the keys were collected.
  lemma MismatchIsKeysDiffer(q: DkgQuorum, keys: seq<Bytes>)
    requires Gathered(keys, q, q.Keys, MasterKeys)
    ensures (exists i :: 0 <= i < |keys| && keys[i] != keys[0]) <==> A.KeysDiffer(q)
  {
    hide Answer;
    if exists i :: 0 <= i < |keys| && keys[i] != keys[0] {
      var i :| 0 <= i < |keys| && keys[i] != keys[0];
      assert keys[i] in keys && keys[0] in keys;
    }
    if A.KeysDiffer(q) {
      var i, j :| i in q && j in q && q[i].status == Confirmed(MasterKeys) && q[j].status == Confirmed(MasterKeys)
                  && Answer(q[i], MasterKeys) != Answer(q[j], MasterKeys);
      assert Answer(q[i], MasterKeys) in keys && Answer(q[j], MasterKeys) in keys;
    }
  }

  method Validate(m: Round, stage: Stage) returns (out: Event, data: Data, err: Option<Error>)
    modifies m
    ensures Told(A.Validate(stage, old(m.payload)), old(m.payload), m.payload, out, data, err)
  {
    hide A.AllConfirmed, A.AnyErrored, A.KeysDiffer, AnswerList, Sorted, Answer, A.Mismatched, A.Restatused,
         Gathered;
    out, data, err := NoEvent, NoData, None;
    if m.payload.dkg.None? {
      return out, data, Some(NilDereference);
    }
    var c := m.payload.dkg.value;
    if DkgExpired(c) {
      return DkgTimeoutInternal(stage), data, err;
    }
    var unconfirmed, errored, answers := Tally(c.quorum, stage);
    if errored {
      return DkgErrorInternal(stage), data, err;
    }
    if stage == MasterKeys {
      MismatchIsKeysDiffer(c.quorum, answers);
      var found := Mismatch(answers);
      if found {
        var q := SetAll(c.quorum, Errored(MasterKeys), Some(KEY_MISMATCH));
        IsMismatched(c.quorum, q);
        m.payload := m.payload.(dkg := Some(c.(quorum := q)));
        return DkgErrorInternal(stage), data, err;
      }
    }
    if unconfirmed > 0 {
      return;
    }
    var q := SetAll(c.quorum, A.Following(stage), None);
    IsRestatused(c.quorum, q, A.Following(stage));
    m.payload := m.payload.(dkg := Some(c.(quorum := q)));
    if stage != MasterKeys {
      var entries := Answers(q, stage);
      StatusesDoNotShow(Sorted(c.quorum.Keys), c.quorum, q, stage);
      data := StageInput(NextStage(stage), 0, entries);
    }
    return DkgConfirmedInternal(stage), data, None;
  }

  lemma IsMismatched(q: DkgQuorum, r: DkgQuorum)
    requires r.Keys == q.Keys
    requires forall id | id in q :: r[id] == q[id].(status := Errored(MasterKeys), error := Some(KEY_MISMATCH))
    ensures r == A.Mismatched(q)
  {
    SameMaps(r, A.Mismatched(q));
  }

  lemma IsRestatused(q: DkgQuorum, r: DkgQuorum, status: DkgStatus)
    requires r.Keys == q.Keys && forall id | id in q :: r[id] == q[id].(status := status)
    ensures r == A.Restatused(q, status)
  {
    SameMaps(r, A.Restatused(q, status));
  }

  // The list of answers does not depend on statuses.
  lemma {:induction false} StatusesDoNotShow(ids: seq<int>, q: DkgQuorum, q1: DkgQuorum, stage: Stage)
    requires Elements(ids) <= q.Keys && q1.Keys == q.Keys
    requires forall id | id in q :: q1[id].answers == q[id].answers && q1[id].username == q[id].username
    ensures AnswerList(ids, q1, stage) == AnswerList(ids, q, stage)
    decreases |ids|
  {
    if ids != [] {
      RestOf(ids, 0);
      assert ids[0..] == ids;
      assert Elements(ids[1..]) <= Elements(ids);
      StatusesDoNotShow(ids[1..], q, q1, stage);
    }
  }

  // A participant reports an error.
  method ConfirmationError(m: Round, stage: Stage, r: Request) returns (out: Event, data: Data, err: Option<Error>)
    modifies m
    ensures Told(A.ConfirmationError(stage, old(m.payload), r), old(m.payload), m.payload, out, data, err)
  {
    hide Valid;
    out, data, err := NoEvent, NoData, None;
    if !r.DkgErrorRequest? {
      return out, data, Some(BadArgument);
    }
    var ok := ValidateRequest(r);
    if !ok {
      return out, data, Some(InvalidRequest);
    }
    if m.payload.dkg.None? {
      return out, data, Some(NilDereference);
    }
    var q := m.payload.dkg.value.quorum;
    if r.pid !in q {
      return out, data, Some(UnknownParticipant);
    }
    var participant := q[r.pid];
    if participant.status != Awaiting(stage) {
      return out, data, Some(WrongStatus);
    }
    participant := participant.(status := Errored(stage));
    participant := participant.(error := r.error);
    participant := participant.(updatedAt := r.createdAt);
    m.payload := m.payload.(dkg := Some(m.payload.dkg.value.(updatedAt := r.createdAt)));
    m.payload := m.payload.(dkg := Some(m.payload.dkg.value.(quorum := q[r.pid := participant])));
    assert m.payload == A.WithParticipant(old(m.payload), r.pid, participant, r.createdAt);
  }

  method Execute(m: Round, e: Event, r: Request) returns (out: Event, data: Data, err: Option<Error>)
    modifies m
    ensures Told(A.Execute(e, old(m.payload), r), old(m.payload), m.payload, out, data, err)
  {
    hide A.Init, A.Receive, A.Validate, A.ConfirmationError;
    match e
    case DkgInit => out, data, err := Init(m, r);
    case DkgConfirm(stage) => out, data, err := Receive(m, stage, r);
    case DkgError(stage) => out, data, err := ConfirmationError(m, stage, r);
    case DkgValidate(stage) => out, data, err := Validate(m, stage);
    case _ => out, data, err := NoEvent, NoData, None;
  }
}
