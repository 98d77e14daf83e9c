/** Callbacks of the signing machine, on values. */
module SigningActions {
  import opened Names
  import opened Payloads

  ghost function Init(p: Payload, r: Request): (res: CallbackResult)
    ensures res.Reply? ==> res.out == NoEvent && res.data == NoData
  {
    if !r.DefaultRequest? then Refuse(BadArgument)
    else if !Valid(r) then Refuse(InvalidRequest)
    else Reply(NoEvent, NoData,
               p.(signing := Some(SigningConfirmation("", 0, map[], [], r.createdAt, 0,
                                                      r.createdAt + SIGNING_DEADLINE))))
  }

  ghost function FreshQuorum(q: DkgQuorum, at: Time): (r: SigningQuorum)
    ensures r.Keys == q.Keys
  {
    map id | id in q :: SigningParticipant(q[id].username, SigningAwaitSigns, map[], None, at)
  }

  // Starts a batch: the quorum of the previous batch is dropped. ExpiresAt and UpdatedAt are kept.
  ghost function Start(p: Payload, r: Request): (res: CallbackResult)
    ensures res.Reply? ==> res.out == SigningStart && res.data.SigningInvitations?
  {
    if !r.SigningStartRequest? then Refuse(BadArgument)
    else if !Valid(r) then Refuse(InvalidRequest)
    else if p.signing.None? || p.dkg.None? then Refuse(NilDereference)
    else
      var q := FreshQuorum(p.dkg.value.quorum, r.createdAt);
      Reply(SigningStart, SigningInvitations(r.batchId, r.pid, r.tasks, SignerList(Sorted(q.Keys), q)),
            p.(signing := Some(p.signing.value.(createdAt := r.createdAt, batchId := r.batchId,
                                                initiator := r.pid, srcPayload := r.tasks, quorum := q))))
  }

  ghost function AddSigns(m: map<string, Bytes>, signs: seq<SignEntry>): map<string, Bytes>
    decreases |signs|
  {
    if signs == [] then m else AddSigns(m[signs[0].messageId := signs[0].sign], signs[1..])
  }

  // Stores a signing participant. The time of the proposal payload, not of the signing payload,
  // is the one that is touched.
  ghost function WithSigner(p: Payload, pid: int, participant: SigningParticipant, at: Time): Payload
    requires p.signing.Some? && p.sig.Some?
  {
    p.(signing := Some(p.signing.value.(quorum := p.signing.value.quorum[pid := participant])),
       sig := Some(p.sig.value.(updatedAt := at)))
  }

  ghost function Receive(p: Payload, r: Request): (res: CallbackResult)
    ensures res.Reply? ==> res.out == NoEvent && res.data == NoData
  {
    if !r.PartialSignsRequest? then Refuse(BadArgument)
    else if !Valid(r) then Refuse(InvalidRequest)
    else if p.signing.None? then Refuse(NilDereference)
    else if r.pid !in p.signing.value.quorum then Refuse(UnknownParticipant)
    else
      var d := p.signing.value.quorum[r.pid];
      if d.status != SigningAwaitSigns then Refuse(WrongStatus)
      else if p.sig.None? then Refuse(NilDereference)
      else Reply(NoEvent, NoData,
                 WithSigner(p, r.pid,
                            d.(partialSigns := AddSigns(d.partialSigns, r.signs),
                               status := SignsConfirmed, updatedAt := r.createdAt),
                            r.createdAt))
  }

  ghost function WithStatus(q: SigningQuorum, status: SigningStatus): set<int> {
    set id | id in q && q[id].status == status
  }

  ghost function Processing(q: SigningQuorum): (r: SigningQuorum)
    ensures r.Keys == q.Keys
  {
    map id | id in q :: q[id].(status := SigningProcess)
  }

  // Runs after every accepted signing event.
  ghost function Validate(p: Payload): (res: CallbackResult)
    ensures res.Reply? ==> res.out in {NoEvent, SigningTimeoutInternal, SigningErrorInternal, SigningConfirmedInternal}
    ensures res.Reply? && res.out != SigningConfirmedInternal ==> res.data == NoData && res.payload == p
  {
    if p.signing.None? then Refuse(NilDereference)
    else
      var c := p.signing.value;
      var n := |c.quorum|;
      if SigningExpired(c) then Reply(SigningTimeoutInternal, NoData, p)
      else if |WithStatus(c.quorum, SigningFailed)| > n - p.threshold then
        Reply(SigningErrorInternal, NoData, p)
      else if n - |WithStatus(c.quorum, SignsConfirmed)| > n - p.threshold then Reply(NoEvent, NoData, p)
      else
        Reply(SigningConfirmedInternal,
              CollectedSigns(c.batchId, c.srcPayload, SignsList(Sorted(c.quorum.Keys), Processing(c.quorum))),
              p.(signing := Some(c.(quorum := Processing(c.quorum)))))
  }

  ghost function Restart(p: Payload): CallbackResult {
    Reply(NoEvent, NoData, p)
  }

  ghost function ConfirmationError(p: Payload, r: Request): (res: CallbackResult)
    ensures res.Reply? ==> res.out == NoEvent && res.data == NoData
  {
    if !r.SigningErrorRequest? then Refuse(BadArgument)
    else if !Valid(r) then Refuse(InvalidRequest)
    else if p.signing.None? then Refuse(NilDereference)
    else if r.pid !in p.signing.value.quorum then Refuse(UnknownParticipant)
    else
      var d := p.signing.value.quorum[r.pid];
      if d.status != SigningAwaitSigns then Refuse(WrongStatus)
      else if p.sig.None? then Refuse(NilDereference)
      else Reply(NoEvent, NoData,
                 WithSigner(p, r.pid, d.(status := SigningFailed, error := r.error, updatedAt := r.createdAt),
                            r.createdAt))
  }

  ghost function Execute(e: Event, p: Payload, r: Request): CallbackResult {
    match e
    case SigningInit => Init(p, r)
    case SigningStart => Start(p, r)
    case PartialSign => Receive(p, r)
    case PartialSignError => ConfirmationError(p, r)
    case SigningValidate => Validate(p)
    case SigningRestart => Restart(p)
    case _ => Reply(NoEvent, NoData, p)
  }
}
