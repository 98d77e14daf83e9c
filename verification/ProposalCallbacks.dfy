/** The callbacks of the signature proposal machine, updating the payload in place. */
module ProposalCallbacks {
  import opened Collections
  import opened Names
  import opened Payloads
  import opened RoundState
  import A = ProposalActions

  method Invite(q: SigQuorum) returns (out: seq<Invitation>)
    ensures out == InvitationList(Sorted(q.Keys), q)
  {
    hide Sorted;
    var ids := OrderedIds(q.Keys);
    out := [];
    assert ids[0..] == ids;
    for k := 0 to |ids|
      invariant Elements(ids[k..]) <= q.Keys
      invariant out + InvitationList(ids[k..], q) == InvitationList(ids, q)
    {
      RestOf(ids, k);
      if k + 1 < |ids| {
        RestOf(ids, k + 1);
      }
      var p := q[ids[k]];
      out := out + [Invitation(ids[k], p.username, p.threshold, p.dkgPubKey, p.pubKey)];
    }
  }

  method Init(m: Round, r: Request) returns (out: Event, data: Data, err: Option<Error>)
    modifies m
    ensures Told(A.Init(old(m.payload), r), old(m.payload), m.payload, out, data, err)
  {
    hide Valid, Sorted, InvitationList, A.NewQuorum, A.KeyMap, A.IdMap;
    out, data, err := NoEvent, NoData, None;
    if !r.ProposalRequest? {
      return out, data, Some(BadArgument);
    }
    var ok := ValidateRequest(r);
    if !ok {
      return out, data, Some(InvalidRequest);
    }
    m.payload := m.payload.(sig := Some(SigConfirmation(map[], r.createdAt, 0, r.createdAt + PROPOSAL_DEADLINE)));
    Enrol(m, r);
    m.payload := m.payload.(threshold := r.threshold);
    var entries := Invite(m.payload.sig.value.quorum);
    return InitProposal, Invitations(entries), None;
  }

  // Gives every participant its number, in the quorum and under its name.
  method Enrol(m: Round, r: Request)
    requires r.ProposalRequest? && m.payload.sig.Some? && m.payload.sig.value.quorum == map[]
    modifies m
    ensures var p, n := old(m.payload), |r.participants|;
            m.payload == p.(sig := Some(p.sig.value.(quorum := A.NewQuorum(r.participants, r.threshold, r.createdAt))),
                            pubKeys := A.KeyMap(p.pubKeys, r.participants, n),
                            ids := A.IdMap(p.ids, r.participants, n))
  {
    hide Range;
    var ps := r.participants;
    NobodyYet(ps, r.threshold, r.createdAt);
    for i := 0 to |ps|
      invariant m.payload ==
                var p := old(m.payload);
                p.(sig := Some(p.sig.value.(quorum := A.NewQuorum(ps[..i], r.threshold, r.createdAt))),
                   pubKeys := A.KeyMap(p.pubKeys, ps, i), ids := A.IdMap(p.ids, ps, i))
    {
      hide A.NewQuorum;
      var q := m.payload.sig.value.quorum;
      var participant := SigParticipant(ps[i].username, ps[i].pubKey, ps[i].dkgPubKey, SigAwait, r.threshold,
        r.createdAt);
      QuorumGrows(ps, i, r.threshold, r.createdAt);
      m.payload := m.payload.(sig := Some(m.payload.sig.value.(quorum := q[i := participant])));
      m.payload := m.payload.(pubKeys := m.payload.pubKeys[ps[i].username := ps[i].pubKey]);
      m.payload := m.payload.(ids := m.payload.ids[ps[i].username := i]);
    }
    assert ps[..|ps|] == ps;
  }

  lemma NobodyYet(ps: seq<ParticipantEntry>, threshold: int, at: Time)
    ensures A.NewQuorum(ps[..0], threshold, at) == map[]
  {
  }

  lemma QuorumGrows(ps: seq<ParticipantEntry>, i: nat, threshold: int, at: Time)
    requires i < |ps|
    ensures A.NewQuorum(ps[..i + 1], threshold, at)
            == A.NewQuorum(ps[..i], threshold, at)[i :=
              SigParticipant(ps[i].username, ps[i].pubKey, ps[i].dkgPubKey, SigAwait, threshold, at)]
  {
    hide Range;
    assert |ps[..i + 1]| == i + 1 && |ps[..i]| == i;
    var a, b := A.NewQuorum(ps[..i + 1], threshold, at), A.NewQuorum(ps[..i], threshold, at);
    assert forall k | 0 <= k < i :: ps[..i + 1][k] == ps[..i][k];
  }

  method Respond(m: Round, e: Event, r: Request) returns (out: Event, data: Data, err: Option<Error>)
    modifies m
    ensures Told(A.Respond(e, old(m.payload), r), old(m.payload), m.payload, out, data, err)
  {
    hide Valid;
    out, data, err := NoEvent, NoData, None;
    if !r.ReplyRequest? {
      return out, data, Some(BadArgument);
    }
    var ok := ValidateRequest(r);
    if !ok {
      return out, data, Some(InvalidRequest);
    }
    if m.payload.sig.None? {
      return out, data, Some(NilDereference);
    }
    var q := m.payload.sig.value.quorum;
    if r.pid !in q {
      return out, data, Some(UnknownParticipant);
    }
    var participant := q[r.pid];
    if participant.updatedAt + PROPOSAL_DEADLINE < r.createdAt {
      return ProposalTimeout, data, err;
    }
    if participant.status != SigAwait {
      return out, data, Some(WrongStatus);
    }
    if e == ConfirmProposal {
      participant := participant.(status := SigConfirmed);
    } else if e == DeclineProposal {
      participant := participant.(status := SigDeclined);
    } else {
      return out, data, Some(UnsupportedEvent);
    }
    participant := participant.(updatedAt := r.createdAt);
    m.payload := m.payload.(sig := Some(m.payload.sig.value.(updatedAt := r.createdAt)));
    m.payload := m.payload.(sig := Some(m.payload.sig.value.(quorum := q[r.pid := participant])));
    assert m.payload == A.WithReply(old(m.payload), r.pid, participant.status, r.createdAt);
  }

  // Counts the participants that have not confirmed and looks for one that declined.
  method Tally(q: SigQuorum) returns (unconfirmed: nat, declined: bool)
    ensures unconfirmed == 0 <==> A.AllAgreed(q)
    ensures declined <==> A.AnyDeclined(q)
  {
    unconfirmed, declined := |q.Keys|, false;
    var todo := q.Keys;
    ghost var others: set<int> := {};
    while todo != {}
      invariant todo <= q.Keys && others <= q.Keys - todo
      invariant forall id | id in q.Keys - todo :: id in others <==> q[id].status != SigConfirmed
      invariant unconfirmed == |todo| + |others|
      invariant declined <==> exists id :: id in q.Keys - todo && q[id].status == SigDeclined
      decreases |todo|
    {
      ghost var some := SomeOf(todo);
      var id :| id in todo;
      if q[id].status == SigConfirmed {
        unconfirmed := unconfirmed - 1;
      } else {
        others := others + {id};
        if q[id].status == SigDeclined {
          declined := true;
        }
      }
      todo := todo - {id};
    }
    if others != {} {
      ghost var some := SomeOf(others);
    }
  }

  method Statuses(q: SigQuorum) returns (out: map<int, SigStatus>)
    ensures out == map id | id in q :: q[id].status
  {
    out := map[];
    var todo := q.Keys;
    while todo != {}
      invariant todo <= q.Keys
      invariant out == map id | id in q.Keys - todo :: q[id].status
      decreases |todo|
    {
      ghost var some := SomeOf(todo);
      var id :| id in todo;
      out := out[id := q[id].status];
      todo := todo - {id};
    }
  }

  method Validate(m: Round) returns (out: Event, data: Data, err: Option<Error>)
    ensures Told(A.Validate(m.payload), m.payload, m.payload, out, data, err)
  {
    hide A.AllAgreed, A.AnyDeclined;
    out, data, err := NoEvent, NoData, None;
    if m.payload.sig.None? {
      return out, data, Some(NilDereference);
    }
    var c := m.payload.sig.value;
    if SigExpired(c) {
      return ProposalTimeout, data, err;
    }
    var unconfirmed, declined := Tally(c.quorum);
    if declined {
      return ProposalDeclined, data, err;
    }
    if unconfirmed > 0 {
      return;
    }
    var statuses := Statuses(c.quorum);
    return ProposalValidated, ProposalStatuses(statuses), None;
  }

  method Execute(m: Round, e: Event, r: Request) returns (out: Event, data: Data, err: Option<Error>)
    modifies m
    ensures Told(A.Execute(e, old(m.payload), r), old(m.payload), m.payload, out, data, err)
  {
    hide A.Init, A.Respond, A.Validate;
    match e
    case InitProposal => out, data, err := Init(m, r);
    case ConfirmProposal | DeclineProposal => out, data, err := Respond(m, e, r);
    case ValidateProposal => out, data, err := Validate(m);
    case _ => out, data, err := NoEvent, NoData, None;
  }
}
