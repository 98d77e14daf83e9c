/** Callbacks of the signature proposal machine, on values. */
module ProposalActions {
  import opened Names
  import opened Payloads

  ghost function IdMap(ids: map<string, int>, ps: seq<ParticipantEntry>, n: nat): map<string, int>
    requires n <= |ps|
  {
    if n == 0 then ids else IdMap(ids, ps, n - 1)[ps[n - 1].username := n - 1]
  }

  ghost function KeyMap(keys: map<string, Bytes>, ps: seq<ParticipantEntry>, n: nat): map<string, Bytes>
    requires n <= |ps|
  {
    if n == 0 then keys else KeyMap(keys, ps, n - 1)[ps[n - 1].username := ps[n - 1].pubKey]
  }

  ghost function NewQuorum(ps: seq<ParticipantEntry>, threshold: int, at: Time): (q: SigQuorum)
    ensures q.Keys == Range(|ps|)
  {
    map i | i in Range(|ps|) ::
      SigParticipant(ps[i].username, ps[i].pubKey, ps[i].dkgPubKey, SigAwait, threshold, at)
  }

  // The first message of a round: one participant per entry, numbered by its position.
  ghost function Init(p: Payload, r: Request): (res: CallbackResult)
    ensures res.Reply? ==> res.out == InitProposal && res.data.Invitations?
  {
    if !r.ProposalRequest? then Refuse(BadArgument)
    else if !Valid(r) then Refuse(InvalidRequest)
    else
      var q := NewQuorum(r.participants, r.threshold, r.createdAt);
      var n := |r.participants|;
      Reply(InitProposal, Invitations(InvitationList(Sorted(q.Keys), q)),
            p.(sig := Some(SigConfirmation(q, r.createdAt, 0, r.createdAt + PROPOSAL_DEADLINE)),
               pubKeys := KeyMap(p.pubKeys, r.participants, n),
               ids := IdMap(p.ids, r.participants, n),
               threshold := r.threshold))
  }

  ghost function WithReply(p: Payload, pid: int, status: SigStatus, at: Time): Payload
    requires p.sig.Some? && pid in p.sig.value.quorum
  {
    var c := p.sig.value;
    var participant := c.quorum[pid].(status := status, updatedAt := at);
    p.(sig := Some(c.(quorum := c.quorum[pid := participant], updatedAt := at)))
  }

  // A participant's answer. A late one cancels the proposal, even when that participant has
  // answered already.
  ghost function Respond(event: Event, p: Payload, r: Request): (res: CallbackResult)
    ensures res.Reply? ==> (res.out == NoEvent || res.out == ProposalTimeout) && res.data == NoData
  {
    if !r.ReplyRequest? then Refuse(BadArgument)
    else if !Valid(r) then Refuse(InvalidRequest)
    else if p.sig.None? then Refuse(NilDereference)
    else if r.pid !in p.sig.value.quorum then Refuse(UnknownParticipant)
    else
      var participant := p.sig.value.quorum[r.pid];
      if participant.updatedAt + PROPOSAL_DEADLINE < r.createdAt then Reply(ProposalTimeout, NoData, p)
      else if participant.status != SigAwait then Refuse(WrongStatus)
      else if event == ConfirmProposal then Reply(NoEvent, NoData, WithReply(p, r.pid, SigConfirmed, r.createdAt))
      else if event == DeclineProposal then Reply(NoEvent, NoData, WithReply(p, r.pid, SigDeclined, r.createdAt))
      else Refuse(UnsupportedEvent)
  }

  ghost predicate AnyDeclined(q: SigQuorum) {
    exists id :: id in q && q[id].status == SigDeclined
  }

  ghost predicate AllAgreed(q: SigQuorum) {
    forall id | id in q :: q[id].status == SigConfirmed
  }

  // Runs after every accepted proposal event.
  ghost function Validate(p: Payload): (res: CallbackResult)
    ensures res.Reply? ==> res.payload == p
    ensures res.Reply? ==> res.out in {NoEvent, ProposalTimeout, ProposalDeclined, ProposalValidated}
    ensures res.Reply? && res.out != ProposalValidated ==> res.data == NoData
  {
    if p.sig.None? then Refuse(NilDereference)
    else
      var c := p.sig.value;
      if SigExpired(c) then Reply(ProposalTimeout, NoData, p)
      else if AnyDeclined(c.quorum) then Reply(ProposalDeclined, NoData, p)
      else if !AllAgreed(c.quorum) then Reply(NoEvent, NoData, p)
      else Reply(ProposalValidated, ProposalStatuses(map id | id in c.quorum :: c.quorum[id].status), p)
  }

  // The callback of an event of this machine; events without one change nothing.
  ghost function Execute(e: Event, p: Payload, r: Request): CallbackResult {
    match e
    case InitProposal => Init(p, r)
    case ConfirmProposal | DeclineProposal => Respond(e, p, r)
    case ValidateProposal => Validate(p)
    case _ => Reply(NoEvent, NoData, p)
  }
}
