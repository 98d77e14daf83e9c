/** One message of the log, handled by a node: load, recover, step, hand over, emit, save. */
module NodeStep {
  import opened Names
  import opened Payloads
  import opened Ceremony

  // A message of the append-only log. `data` is what its bytes decode to; `signers` are the
  // public keys under which its signature verifies.
  datatype Message = Message(
    id: string, round: string, offset: nat, event: Event, data: Request,
    signers: set<Bytes>, sender: string, recipient: string)

  // A dump: the state and payload of one round.
  datatype Inst = Inst(state: State, payload: Payload)

  datatype Operation = Operation(round: string, state: State, data: Data)

  type Signatures = map<string, Bytes>

  // What the node calls but this model does not define: threshold recovery from the public
  // polynomial, the collected signs, the threshold and the number of keys; and the expansion of
  // signing tasks into the messages to store.
  datatype Env = Env(
    reconstruct: (Bytes, Data, int, nat) -> Option<Signatures>,
    tasksExpand: seq<Task> -> bool)

  datatype StepOut = StepOut(
    saved: Option<Inst>, op: Option<Operation>, posted: Option<Signatures>, err: Option<Error>)

  predicate IsSpace(c: char) {
    || '\t' <= c <= '\r' || c == ' ' || c == 0x85 as char || c == 0xA0 as char || c == 0x1680 as char
    || 0x2000 as char <= c <= 0x200A as char || c == 0x2028 as char || c == 0x2029 as char
    || c == 0x202F as char || c == 0x205F as char || c == 0x3000 as char
  }

  function TrimSpace(s: string): string
    decreases |s|
  {
    if s == "" then ""
    else if IsSpace(s[0]) then TrimSpace(s[1..])
    else if IsSpace(s[|s| - 1]) then TrimSpace(s[..|s| - 1])
    else s
  }

  // The states the pool finds a machine for: the source states of the three tables.
  predicate Routable(s: State) {
    match s
    case GlobalIdle | AwaitParticipants | ProposalCollected => true
    case DkgAwait(_) | DkgCanceledByError(_) | MasterKeyCollected => true
    case SigningIdle | SigningAwait | SigningCollected => true
    case SigningCanceledByTimeout | SigningCanceledByError => true
    case _ => false
  }

  datatype LoadResult = Loaded(inst: Inst) | LoadFailed(err: Error)

  // Loads the round's instance, creating an idle one when there is none.
  function Load(saved: Option<Inst>, round: string): LoadResult {
    match saved
    case None =>
      var id := TrimSpace(round);
      if id == "" then LoadFailed(EmptyRound) else Loaded(Inst(GlobalIdle, EmptyPayload(id)))
    case Some(inst) => if Routable(inst.state) then Loaded(inst) else LoadFailed(NotRoutable)
  }

  predicate Verified(skip: bool, p: Payload, m: Message) {
    skip || (m.sender != "" && m.sender in p.pubKeys && p.pubKeys[m.sender] in m.signers)
  }

  ghost predicate AnyDkgError(p: Payload) {
    p.dkg.Some? && exists id :: id in p.dkg.value.quorum && p.dkg.value.quorum[id].error.Some?
  }

  datatype RecoverResult = Aborted | Recovered(inst: Inst) | RecoverFailed(err: Error)

  ghost function RestartSigning(i: Inst, now: Time): RecoverResult {
    match Do(i.state, i.payload, SigningRestart, DefaultRequest(now))
    case Rejected(err) => RecoverFailed(err)
    case Moved(s, p, _) => Recovered(Inst(s, p))
  }

  ghost function RecoverError(i: Inst, now: Time): RecoverResult {
    if !HasSuffix(StateName(i.state), "_error") then Recovered(i)
    else if AnyDkgError(i.payload) then Aborted
    else if i.payload.signing.Some? then RestartSigning(i, now)
    else Recovered(i)
  }

  ghost function RecoverTimeout(i: Inst, now: Time): RecoverResult {
    var name := StateName(i.state);
    if !HasSuffix(name, "_timeout") then Recovered(i)
    else if HasPrefix(name, "state_sig_") || HasPrefix(name, "state_dkg") then Aborted
    else if HasPrefix(name, "state_signing_") then
      if i.payload.signing.None? then RecoverFailed(NilDereference) else RestartSigning(i, now)
    else Recovered(i)
  }

  // Failed ceremonies are left alone; failed signings go back to idle.
  ghost function Recover(i: Inst, now: Time): RecoverResult {
    match RecoverError(i, now)
    case Recovered(i1) => RecoverTimeout(i1, now)
    case other => other
  }

  // The request a message of the log may carry into the machines; events that only the node
  // itself fires are refused.
  function Decode(m: Message): Option<Request> {
    match m.event
    case ConfirmProposal | DeclineProposal => Some(if m.data.ReplyRequest? then m.data else Undecodable)
    case InitProposal => Some(if m.data.ProposalRequest? then m.data else Undecodable)
    case DkgConfirm(stage) =>
      Some(if m.data.ConfirmationRequest? && m.data.stage == stage then m.data else Undecodable)
    case PartialSign => Some(if m.data.PartialSignsRequest? then m.data else Undecodable)
    case SigningStart => Some(if m.data.SigningStartRequest? then m.data else Undecodable)
    case DkgError(_) => Some(if m.data.DkgErrorRequest? then m.data else Undecodable)
    case PartialSignError | SignatureReconstructionFailed =>
      Some(if m.data.SigningErrorRequest? then m.data else Undecodable)
    case _ => None
  }

  // A machine that finished hands its payload to the next one.
  ghost function HandOver(s: State, p: Payload, data: Data, now: Time): DoResult {
    var r := if s == ProposalCollected then Do(s, p, DkgInit, DefaultRequest(now)) else Moved(s, p, data);
    if r.Moved? && r.state == MasterKeyCollected
    then Do(r.state, r.payload, SigningInit, DefaultRequest(now))
    else r
  }

  // The states in which the airgapped machine has something to do.
  predicate NeedsOperation(s: State) {
    s.AwaitParticipants? || s.DkgAwait? || s.SigningAwait?
  }

  ghost function Save(env: Env, before: Inst, m: Message, s: State, p: Payload,
                      op: Option<Operation>, posted: Option<Signatures>): StepOut
  {
    if m.event == SigningStart && !(m.data.SigningStartRequest? && env.tasksExpand(m.data.tasks))
    then StepOut(Some(before), None, posted, Some(BadTasks))
    else StepOut(Some(Inst(s, p)), op, posted, None)
  }

  ghost function Finish(env: Env, before: Inst, m: Message, s: State, p: Payload, data: Data, now: Time): StepOut {
    if s == SigningCollected then
      if !data.CollectedSigns? then StepOut(Some(before), None, None, Some(BadArgument))
      else if p.dkg.None? then StepOut(Some(before), None, None, Some(NilDereference))
      else
        match env.reconstruct(p.dkg.value.pubPoly, data, p.threshold, |p.pubKeys|)
        case None => StepOut(Some(before), None, None, Some(ReconstructionFailed))
        case Some(sigs) =>
          match Do(s, p, SigningRestart, DefaultRequest(now))
          case Rejected(err) => StepOut(Some(before), None, Some(sigs), Some(err))
          case Moved(s1, p1, _) => Save(env, before, m, s1, p1, None, Some(sigs))
    else
      var op := if NeedsOperation(s) && data != NoData then Some(Operation(m.round, s, data)) else None;
      Save(env, before, m, s, p, op, None)
  }

  ghost function Deliver(env: Env, i: Inst, m: Message, now: Time): StepOut {
    match Decode(m)
    case None => StepOut(Some(i), None, None, Some(InvalidEvent))
    case Some(r) =>
      match Do(i.state, i.payload, m.event, r)
      case Rejected(err) => StepOut(Some(i), None, None, Some(err))
      case Moved(s, p, data) =>
        match HandOver(s, p, data, now)
        case Rejected(err) => StepOut(Some(i), None, None, Some(err))
        case Moved(s1, p1, data1) => Finish(env, i, m, s1, p1, data1, now)
  }

  // One call of processMessage on the round the message names. `now` is what the node's clock
  // shows during the call.
  ghost function Step(env: Env, skip: bool, saved: Option<Inst>, m: Message, now: Time): StepOut {
    match Load(saved, m.round)
    case LoadFailed(err) => StepOut(saved, None, None, Some(err))
    case Loaded(i) =>
      if m.event != InitProposal && !Verified(skip, i.payload, m)
      then StepOut(Some(i), None, None, Some(Unverified))
      else if m.event == SignatureReconstructed || m.event == SignatureReconstructionFailed
      then StepOut(Some(i), None, None, None)
      else
        match Recover(i, now)
        case Aborted => StepOut(Some(i), None, None, None)
        case RecoverFailed(err) => StepOut(Some(i), None, None, Some(err))
        case Recovered(i1) => Deliver(env, i1, m, now)
  }
}
