/** The callbacks of the signing machine, updating the payload in place. */
module SigningCallbacks {
  import opened Collections
  import opened Names
  import opened Payloads
  import opened RoundState
  import A = SigningActions

  method Init(m: Round, r: Request) returns (out: Event, data: Data, err: Option<Error>)
    modifies m
    ensures Told(A.Init(old(m.payload), r), old(m.payload), m.payload, out, data, err)
  {
    hide Valid;
    out, data, err := NoEvent, NoData, None;
    if !r.DefaultRequest? {
      return out, data, Some(BadArgument);
    }
    var ok := ValidateRequest(r);
    if !ok {
      return out, data, Some(InvalidRequest);
    }
    m.payload := m.payload.(signing :=
      Some(SigningConfirmation("", 0, map[], [], r.createdAt, 0, r.createdAt + SIGNING_DEADLINE)));
  }

  // A fresh quorum with the participants of the DKG.
  method Reset(q: DkgQuorum, at: Time) returns (r: SigningQuorum)
    ensures r == A.FreshQuorum(q, at)
  {
    hide Sorted, Elements, A.FreshQuorum;
    var ids := OrderedIds(q.Keys);
    r := map[];
    NoElements(ids);
    for k := 0 to |ids|
      invariant r.Keys == Elements(ids[..k])
      invariant forall id | id in r ::
                  id in q && r[id] == SigningParticipant(q[id].username, SigningAwaitSigns, map[], None, at)
    {
      OneElement(ids, k);
      r := r[ids[k] := SigningParticipant(q[ids[k]].username, SigningAwaitSigns, map[], None, at)];
    }
    assert ids[..|ids|] == ids;
    IsFresh(q, at, r);
  }

  lemma NoElements(ids: seq<int>)
    ensures Elements(ids[..0]) == {}
  {
  }

  lemma OneElement(ids: seq<int>, k: nat)
    requires k < |ids|
    ensures ids[k] in Elements(ids) && Elements(ids[..k + 1]) == Elements(ids[..k]) + {ids[k]}
  {
    assert ids[..k + 1] == ids[..k] + [ids[k]];
  }

  lemma IsFresh(q: DkgQuorum, at: Time, r: SigningQuorum)
    requires r.Keys == q.Keys
    requires forall id | id in r :: r[id] == SigningParticipant(q[id].username, SigningAwaitSigns, map[], None, at)
    ensures r == A.FreshQuorum(q, at)
  {
    SameMaps(r, A.FreshQuorum(q, at));
  }

  method Signers(q: SigningQuorum) returns (out: seq<Entry>)
    ensures out == SignerList(Sorted(q.Keys), q)
  {
    hide Sorted;
    var ids := OrderedIds(q.Keys);
    out := [];
    assert ids[0..] == ids;
    for k := 0 to |ids|
      invariant Elements(ids[k..]) <= q.Keys
      invariant out + SignerList(ids[k..], q) == SignerList(ids, q)
    {
      RestOf(ids, k);
      if k + 1 < |ids| {
        RestOf(ids, k + 1);
      }
      out := out + [Entry(ids[k], q[ids[k]].username, [])];
    }
  }

  method Start(m: Round, r: Request) returns (out: Event, data: Data, err: Option<Error>)
    modifies m
    ensures Told(A.Start(old(m.payload), r), old(m.payload), m.payload, out, data, err)
  {
    hide Valid, Sorted, SignerList, A.FreshQuorum;
    out, data, err := NoEvent, NoData, None;
    if !r.SigningStartRequest? {
      return out, data, Some(BadArgument);
    }
    var ok := ValidateRequest(r);
    if !ok {
      return out, data, Some(InvalidRequest);
    }
    if m.payload.signing.None? || m.payload.dkg.None? {
      return out, data, Some(NilDereference);
    }
    m.payload := m.payload.(signing := Some(m.payload.signing.value.(createdAt := r.createdAt)));
    m.payload := m.payload.(signing := Some(m.payload.signing.value.(batchId := r.batchId)));
    m.payload := m.payload.(signing := Some(m.payload.signing.value.(initiator := r.pid)));
    m.payload := m.payload.(signing := Some(m.payload.signing.value.(srcPayload := r.tasks)));
    var q := Reset(m.payload.dkg.value.quorum, r.createdAt);
    m.payload := m.payload.(signing := Some(m.payload.signing.value.(quorum := q)));
    var c := m.payload.signing.value;
    var entries := Signers(q);
    return SigningStart, SigningInvitations(c.batchId, c.initiator, c.srcPayload, entries), None;
  }

  // Stores the signatures of a message one by one; a later one for the same message wins.
  method Store(signs: seq<SignEntry>, before: map<string, Bytes>) returns (after: map<string, Bytes>)
    ensures after == A.AddSigns(before, signs)
  {
    after := before;
    assert signs[0..] == signs;
    for k := 0 to |signs|
      invariant A.AddSigns(after, signs[k..]) == A.AddSigns(before, signs)
    {
      assert signs[k..][0] == signs[k] && signs[k..][1..] == signs[k + 1..];
      after := after[signs[k].messageId := signs[k].sign];
    }
  }

  method Receive(m: Round, r: Request) returns (out: Event, data: Data, err: Option<Error>)
    modifies m
    ensures Told(A.Receive(old(m.payload), r), old(m.payload), m.payload, out, data, err)
  {
    hide Valid, A.AddSigns;
    out, data, err := NoEvent, NoData, None;
    if !r.PartialSignsRequest? {
      return out, data, Some(BadArgument);
    }
    var ok := ValidateRequest(r);
    if !ok {
      return out, data, Some(InvalidRequest);
    }
    if m.payload.signing.None? {
      return out, data, Some(NilDereference);
    }
    var q := m.payload.signing.value.quorum;
    if r.pid !in q {
      return out, data, Some(UnknownParticipant);
    }
    var participant := q[r.pid];
    if participant.status != SigningAwaitSigns {
      return out, data, Some(WrongStatus);
    }
    var signs := Store(r.signs, participant.partialSigns);
    participant := participant.(partialSigns := signs);
    participant := participant.(status := SignsConfirmed);
    participant := participant.(updatedAt := r.createdAt);
    m.payload := m.payload.(signing := Some(m.payload.signing.value.(quorum := q[r.pid := participant])));
    if m.payload.sig.None? {
      return out, data, Some(NilDereference);
    }
    m.payload := m.payload.(sig := Some(m.payload.sig.value.(updatedAt := r.createdAt)));
    assert m.payload == A.WithSigner(old(m.payload), r.pid, participant, r.createdAt);
  }

  method ConfirmationError(m: Round, r: Request) returns (out: Event, data: Data, err: Option<Error>)
    modifies m
    ensures Told(A.ConfirmationError(old(m.payload), r), old(m.payload), m.payload, out, data, err)
  {
    hide Valid;
    out, data, err := NoEvent, NoData, None;
    if !r.SigningErrorRequest? {
      return out, data, Some(BadArgument);
    }
    var ok := ValidateRequest(r);
    if !ok {
      return out, data, Some(InvalidRequest);
    }
    if m.payload.signing.None? {
      return out, data, Some(NilDereference);
    }
    var q := m.payload.signing.value.quorum;
    if r.pid !in q {
      return out, data, Some(UnknownParticipant);
    }
    var participant := q[r.pid];
    if participant.status != SigningAwaitSigns {
      return out, data, Some(WrongStatus);
    }
    participant := participant.(status := SigningFailed);
    participant := participant.(error := r.error);
    participant := participant.(updatedAt := r.createdAt);
    m.payload := m.payload.(signing := Some(m.payload.signing.value.(quorum := q[r.pid := participant])));
    if m.payload.sig.None? {
      return out, data, Some(NilDereference);
    }
    m.payload := m.payload.(sig := Some(m.payload.sig.value.(updatedAt := r.createdAt)));
    assert m.payload == A.WithSigner(old(m.payload), r.pid, participant, r.createdAt);
  }

  // The participants with a status among some of them.
  ghost function Among(q: SigningQuorum, ids: set<int>, status: SigningStatus): set<int>
    requires ids <= q.Keys
  {
    set id | id in ids && q[id].status == status
  }

  lemma AmongMore(q: SigningQuorum, ids: set<int>, status: SigningStatus, id: int)
    requires ids <= q.Keys && id in q && id !in ids
    ensures |Among(q, ids + {id}, status)| == |Among(q, ids, status)| + (if q[id].status == status then 1 else 0)
  {
    if q[id].status == status {
      assert Among(q, ids + {id}, status) == Among(q, ids, status) + {id};
    } else {
      assert Among(q, ids + {id}, status) == Among(q, ids, status);
    }
  }

  // Counts failures and missing confirmations.
  method Tally(q: SigningQuorum) returns (failed: nat, unconfirmed: int)
    ensures failed == |A.WithStatus(q, SigningFailed)|
    ensures unconfirmed == |q| - |A.WithStatus(q, SignsConfirmed)|
  {
    hide Among;
    failed, unconfirmed := 0, |q|;
    var todo := q.Keys;
    ghost var done: set<int> := {};
    AmongNone(q);
    while todo != {}
      invariant todo + done == q.Keys && todo !! done
      invariant failed == |Among(q, done, SigningFailed)|
      invariant unconfirmed == |q| - |Among(q, done, SignsConfirmed)|
      decreases |todo|
    {
      ghost var some := SomeOf(todo);
      var id :| id in todo;
      AmongMore(q, done, SigningFailed, id);
      AmongMore(q, done, SignsConfirmed, id);
      TakenOut(todo, done, {}, id);
      todo, done := todo - {id}, done + {id};
      if q[id].status == SigningFailed {
        failed := failed + 1;
      } else if q[id].status == SignsConfirmed {
        unconfirmed := unconfirmed - 1;
      }
    }
    assert done == q.Keys;
    AmongAll(q);
  }

  lemma AmongNone(q: SigningQuorum)
    ensures forall status :: |Among(q, {}, status)| == 0
  {
  }

  lemma AmongAll(q: SigningQuorum)
    ensures forall status :: Among(q, q.Keys, status) == A.WithStatus(q, status)
  {
  }

  method SetProcessing(q: SigningQuorum) returns (r: SigningQuorum)
    ensures r == A.Processing(q)
  {
    r := q;
    var todo := q.Keys;
    while todo != {}
      invariant todo <= q.Keys && r.Keys == q.Keys
      invariant forall id | id in q :: r[id] == if id in todo then q[id] else q[id].(status := SigningProcess)
      decreases |todo|
    {
      ghost var some := SomeOf(todo);
      var id :| id in todo;
      r := r[id := r[id].(status := SigningProcess)];
      todo := todo - {id};
    }
    SameMaps(r, A.Processing(q));
  }

  // The participants that stored a signature, in id order.
  method Signs(q: SigningQuorum) returns (out: seq<SignsEntry>)
    ensures out == SignsList(Sorted(q.Keys), q)
  {
    hide Sorted, SignsList;
    var ids := OrderedIds(q.Keys);
    out := [];
    assert ids[0..] == ids;
    for k := 0 to |ids|
      invariant Elements(ids[k..]) <= q.Keys
      invariant out + SignsList(ids[k..], q) == SignsList(ids, q)
    {
      SignsStep(ids, k, q);
      var p := q[ids[k]];
      if p.partialSigns == map[] {
        continue;
      }
      out := out + [SignsEntry(ids[k], p.username, p.partialSigns)];
    }
    assert ids[|ids|..] == [];
    NoSigns(q);
  }

  lemma NoSigns(q: SigningQuorum)
    ensures SignsList([], q) == []
  {
  }

  lemma SignsStep(ids: seq<int>, k: nat, q: SigningQuorum)
    requires k < |ids| && Elements(ids[k..]) <= q.Keys
    ensures ids[k] in q && Elements(ids[k + 1..]) <= q.Keys
    ensures SignsList(ids[k..], q) ==
            var p := q[ids[k]];
            (if p.partialSigns == map[] then [] else [SignsEntry(ids[k], p.username, p.partialSigns)])
              + SignsList(ids[k + 1..], q)
  {
    RestOf(ids, k);
    assert ids[k..][0] in Elements(ids[k..]);
    assert forall x | x in ids[k + 1..] :: x in ids[k..];
  }

  method Validate(m: Round) returns (out: Event, data: Data, err: Option<Error>)
    modifies m
    ensures Told(A.Validate(old(m.payload)), old(m.payload), m.payload, out, data, err)
  {
    hide Sorted, SignsList, A.WithStatus, A.Processing;
    out, data, err := NoEvent, NoData, None;
    if m.payload.signing.None? {
      return out, data, Some(NilDereference);
    }
    var c := m.payload.signing.value;
    if SigningExpired(c) {
      return SigningTimeoutInternal, data, err;
    }
    var failed, unconfirmed := Tally(c.quorum);
    if failed > |c.quorum| - m.payload.threshold {
      return SigningErrorInternal, data, err;
    }
    if unconfirmed > |c.quorum| - m.payload.threshold {
      return;
    }
    var q := SetProcessing(c.quorum);
    m.payload := m.payload.(signing := Some(c.(quorum := q)));
    var signers := Signs(q);
    return SigningConfirmedInternal, CollectedSigns(c.batchId, c.srcPayload, signers), None;
  }

  method Execute(m: Round, e: Event, r: Request) returns (out: Event, data: Data, err: Option<Error>)
    modifies m
    ensures Told(A.Execute(e, old(m.payload), r), old(m.payload), m.payload, out, data, err)
  {
    hide A.Init, A.Start, A.Receive, A.Validate, A.ConfirmationError;
    match e
    case SigningInit => out, data, err := Init(m, r);
    case SigningStart => out, data, err := Start(m, r);
    case PartialSign => out, data, err := Receive(m, r);
    case PartialSignError => out, data, err := ConfirmationError(m, r);
    case SigningValidate => out, data, err := Validate(m);
    case SigningRestart => out, data, err := NoEvent, NoData, None;
    case _ => out, data, err := NoEvent, NoData, None;
  }
}
