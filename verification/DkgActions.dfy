/** Callbacks of the DKG machine, on values. The four stages run the same code on different fields. */
module DkgActions {
  import opened Names
  import opened Payloads

  ghost function FromProposal(q: SigQuorum): (r: DkgQuorum)
    ensures r.Keys == q.Keys
  {
    map id | id in q ::
      DkgParticipant(q[id].username, q[id].dkgPubKey, map[], Awaiting(Commits), None, q[id].updatedAt)
  }

  ghost function Init(p: Payload, r: Request): (res: CallbackResult)
    ensures res.Reply? ==> res.out == NoEvent || res.out == DkgInit
  {
    if p.dkg.Some? then Reply(NoEvent, NoData, p)
    else if !r.DefaultRequest? then Refuse(BadArgument)
    else if p.sig.None? then Refuse(NilDereference)
    else
      var sq := p.sig.value.quorum;
      if sq != map[] && 0 !in sq then Refuse(NilDereference)
      else
        var q := FromProposal(sq);
        var threshold := if sq == map[] then 0 else sq[0].threshold;
        Reply(DkgInit, StageInput(Commits, threshold, KeyList(Sorted(q.Keys), q)),
              p.(dkg := Some(DkgConfirmation(q, r.createdAt, 0, r.createdAt + DKG_DEADLINE, []))))
  }

  ghost function WithParticipant(p: Payload, pid: int, participant: DkgParticipant, at: Time): Payload
    requires p.dkg.Some?
  {
    var c := p.dkg.value;
    p.(dkg := Some(c.(quorum := c.quorum[pid := participant], updatedAt := at)))
  }

  ghost function Answered(d: DkgParticipant, stage: Stage, content: Bytes, at: Time): DkgParticipant {
    d.(answers := d.answers[stage := content], status := Confirmed(stage), updatedAt := at)
  }

  // The payload after a confirmation of a stage was stored.
  ghost function Stored(p: Payload, r: Request): Payload
    requires r.ConfirmationRequest? && p.dkg.Some? && r.pid in p.dkg.value.quorum
  {
    var d := p.dkg.value.quorum[r.pid];
    var p1 := WithParticipant(p, r.pid, Answered(d, r.stage, r.content, r.createdAt), r.createdAt);
    if r.stage == MasterKeys then p1.(dkg := Some(p1.dkg.value.(pubPoly := r.pubPoly))) else p1
  }

  ghost function Receive(stage: Stage, p: Payload, r: Request): (res: CallbackResult)
    ensures res.Reply? ==> res.out == NoEvent && res.data == NoData
  {
    if !(r.ConfirmationRequest? && r.stage == stage) then Refuse(BadArgument)
    else if !Valid(r) then Refuse(InvalidRequest)
    else if p.dkg.None? then Refuse(NilDereference)
    else if r.pid !in p.dkg.value.quorum then Refuse(UnknownParticipant)
    else if p.dkg.value.quorum[r.pid].status != Awaiting(stage) then Refuse(WrongStatus)
    else Reply(NoEvent, NoData, Stored(p, r))
  }

  ghost predicate AnyErrored(q: DkgQuorum, stage: Stage) {
    exists id :: id in q && q[id].status == Errored(stage)
  }

  ghost predicate AllConfirmed(q: DkgQuorum, stage: Stage) {
    forall id | id in q :: q[id].status == Confirmed(stage)
  }

  // Two participants confirmed different master keys.
  ghost predicate KeysDiffer(q: DkgQuorum) {
    exists i, j :: i in q && j in q
                && q[i].status == Confirmed(MasterKeys) && q[j].status == Confirmed(MasterKeys)
                && Answer(q[i], MasterKeys) != Answer(q[j], MasterKeys)
  }

  ghost function Restatused(q: DkgQuorum, status: DkgStatus): (r: DkgQuorum)
    ensures r.Keys == q.Keys
  {
    map id | id in q :: q[id].(status := status)
  }

  ghost function Mismatched(q: DkgQuorum): (r: DkgQuorum)
    ensures r.Keys == q.Keys
  {
    map id | id in q :: q[id].(status := Errored(MasterKeys), error := Some(KEY_MISMATCH))
  }

  ghost function WithQuorum(p: Payload, q: DkgQuorum): Payload
    requires p.dkg.Some?
  {
    p.(dkg := Some(p.dkg.value.(quorum := q)))
  }

  // Runs after every accepted event of a stage.
  ghost function Validate(stage: Stage, p: Payload): (res: CallbackResult)
    ensures res.Reply? ==>
              res.out in {NoEvent, DkgTimeoutInternal(stage), DkgErrorInternal(stage), DkgConfirmedInternal(stage)}
    ensures res.Reply? && res.out != DkgConfirmedInternal(stage) ==> res.data == NoData
  {
    if p.dkg.None? then Refuse(NilDereference)
    else
      var c := p.dkg.value;
      if DkgExpired(c) then Reply(DkgTimeoutInternal(stage), NoData, p)
      else if AnyErrored(c.quorum, stage) then Reply(DkgErrorInternal(stage), NoData, p)
      else if stage == MasterKeys && KeysDiffer(c.quorum) then
        Reply(DkgErrorInternal(stage), NoData, WithQuorum(p, Mismatched(c.quorum)))
      else if !AllConfirmed(c.quorum, stage) then Reply(NoEvent, NoData, p)
      else Reply(DkgConfirmedInternal(stage), Collected(stage, c.quorum),
                 WithQuorum(p, Restatused(c.quorum, Following(stage))))
  }

  function Following(stage: Stage): DkgStatus {
    if stage == MasterKeys then Confirmed(MasterKeys) else Awaiting(NextStage(stage))
  }

  ghost function Collected(stage: Stage, q: DkgQuorum): (data: Data)
    ensures data == NoData <==> stage == MasterKeys
    ensures !data.CollectedSigns?
  {
    if stage == MasterKeys then NoData
    else StageInput(NextStage(stage), 0, AnswerList(Sorted(q.Keys), q, stage))
  }

  // A participant reports that it could not answer a stage.
  ghost function ConfirmationError(stage: Stage, p: Payload, r: Request): (res: CallbackResult)
    ensures res.Reply? ==> res.out == NoEvent && res.data == NoData
  {
    if !r.DkgErrorRequest? then Refuse(BadArgument)
    else if !Valid(r) then Refuse(InvalidRequest)
    else if p.dkg.None? then Refuse(NilDereference)
    else if r.pid !in p.dkg.value.quorum then Refuse(UnknownParticipant)
    else
      var d := p.dkg.value.quorum[r.pid];
      if d.status != Awaiting(stage) then Refuse(WrongStatus)
      else Reply(NoEvent, NoData,
                 WithParticipant(p, r.pid,
                                 d.(status := Errored(stage), error := r.error, updatedAt := r.createdAt),
                                 r.createdAt))
  }

  ghost function Execute(e: Event, p: Payload, r: Request): CallbackResult {
    match e
    case DkgInit => Init(p, r)
    case DkgConfirm(stage) => Receive(stage, p, r)
    case DkgError(stage) => ConfirmationError(stage, p, r)
    case DkgValidate(stage) => Validate(stage, p)
    case _ => Reply(NoEvent, NoData, p)
  }
}
