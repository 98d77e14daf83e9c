/** The messages a round accepted, and what a payload should hold of them. */
module History {
  import opened Names
  import opened Payloads
  import opened NodeStep
  import opened Runs

  // ---------------------------------------------------------------- the accepted messages of a run

  // A message that was accepted: its event, its data, and what the node's clock showed.
  datatype Fact = Fact(event: Event, data: Request, now: Time)

  // The step succeeded and changed the round.
  ghost predicate Accepted(env: Env, saved: Option<Inst>, x: Input) {
    var out := Step(env, x.skip, saved, x.m, x.now);
    out.err.None? && out.saved != Base(saved, x.m)
  }

  ghost function FactOf(x: Input): Fact {
    Fact(x.m.event, x.m.data, x.now)
  }

  // What a run accepts, in order.
  ghost function FactsOf(env: Env, saved: Option<Inst>, ins: seq<Input>): seq<Fact>
    decreases |ins|
  {
    if ins == [] then []
    else
      var first := if Accepted(env, saved, ins[0]) then [FactOf(ins[0])] else [];
      first + FactsOf(env, After(env, saved, ins[0]), ins[1..])
  }

  // ---------------------------------------------------------------- what the facts say

  function PidOf(r: Request): int {
    match r
    case ReplyRequest(pid, _) => pid
    case ConfirmationRequest(_, pid, _, _, _) => pid
    case DkgErrorRequest(pid, _, _) => pid
    case SigningStartRequest(_, pid, _, _) => pid
    case PartialSignsRequest(_, pid, _, _) => pid
    case SigningErrorRequest(pid, _, _) => pid
    case _ => -1
  }

  function CreatedAt(r: Request): Time {
    match r
    case Undecodable => 0
    case _ => r.createdAt
  }

  predicate IsDkg(e: Event) {
    e.DkgConfirm? || e.DkgError?
  }

  // What touches the times of the proposal: its replies and, oddly, those to signing batches.
  predicate Touches(e: Event) {
    e == ConfirmProposal || e == DeclineProposal || e == PartialSign || e == PartialSignError
  }

  // A participant's last message of a kind.
  ghost function Last(h: seq<Fact>, e: Event, pid: int): Option<Request> {
    if h == [] then None
    else
      var f := h[|h| - 1];
      if f.event == e && PidOf(f.data) == pid then Some(f.data) else Last(h[..|h| - 1], e, pid)
  }

  // A participant's last message of the DKG.
  ghost function LastDkg(h: seq<Fact>, pid: int): Option<Request> {
    if h == [] then None
    else
      var f := h[|h| - 1];
      if IsDkg(f.event) && PidOf(f.data) == pid then Some(f.data) else LastDkg(h[..|h| - 1], pid)
  }

  // When the last message of the DKG was created.
  ghost function DkgTime(h: seq<Fact>): Time {
    if h == [] then 0
    else if IsDkg(h[|h| - 1].event) then CreatedAt(h[|h| - 1].data) else DkgTime(h[..|h| - 1])
  }

  ghost function TouchTime(h: seq<Fact>): Time {
    if h == [] then 0
    else if Touches(h[|h| - 1].event) then CreatedAt(h[|h| - 1].data) else TouchTime(h[..|h| - 1])
  }

  // When, by the node's clock, the last message of a kind was accepted.
  ghost function Clock(h: seq<Fact>, e: Event): Time {
    if h == [] then 0 else if h[|h| - 1].event == e then h[|h| - 1].now else Clock(h[..|h| - 1], e)
  }

  // The public polynomial of the last master key.
  ghost function Poly(h: seq<Fact>): Bytes {
    if h == [] then []
    else
      var f := h[|h| - 1];
      if f.event == DkgConfirm(MasterKeys) && f.data.ConfirmationRequest? then f.data.pubPoly
      else Poly(h[..|h| - 1])
  }

  ghost function LastStart(h: seq<Fact>): Option<Request> {
    if h == [] then None
    else if h[|h| - 1].event == SigningStart then Some(h[|h| - 1].data) else LastStart(h[..|h| - 1])
  }

  // A participant's reply to the last batch.
  ghost function InBatch(h: seq<Fact>, pid: int): Option<Fact> {
    if h == [] then None
    else
      var f := h[|h| - 1];
      if f.event == SigningStart then None
      else if (f.event == PartialSign || f.event == PartialSignError) && PidOf(f.data) == pid then Some(f)
      else InBatch(h[..|h| - 1], pid)
  }

  lemma Grows(h: seq<Fact>, f: Fact)
    ensures (h + [f])[..|h|] == h && (h + [f])[|h|] == f && |h + [f]| == |h| + 1
  {
  }

  lemma LastGrows(h: seq<Fact>, f: Fact, e: Event, pid: int)
    ensures Last(h + [f], e, pid) == if f.event == e && PidOf(f.data) == pid then Some(f.data) else Last(h, e, pid)
    ensures LastDkg(h + [f], pid)
            == if IsDkg(f.event) && PidOf(f.data) == pid then Some(f.data) else LastDkg(h, pid)
  {
    Grows(h, f);
  }

  lemma TimesGrow(h: seq<Fact>, f: Fact)
    ensures DkgTime(h + [f]) == if IsDkg(f.event) then CreatedAt(f.data) else DkgTime(h)
    ensures TouchTime(h + [f]) == if Touches(f.event) then CreatedAt(f.data) else TouchTime(h)
    ensures forall e :: Clock(h + [f], e) == if f.event == e then f.now else Clock(h, e)
    ensures Poly(h + [f]) == if f.event == DkgConfirm(MasterKeys) && f.data.ConfirmationRequest? then f.data.pubPoly
                             else Poly(h)
  {
    Grows(h, f);
  }

  lemma BatchGrows(h: seq<Fact>, f: Fact, pid: int)
    ensures LastStart(h + [f]) == if f.event == SigningStart then Some(f.data) else LastStart(h)
    ensures InBatch(h + [f], pid)
            == if f.event == SigningStart then None
               else if (f.event == PartialSign || f.event == PartialSignError) && PidOf(f.data) == pid then Some(f)
               else InBatch(h, pid)
  {
    Grows(h, f);
  }

  // ---------------------------------------------------------------- what a payload holds of them

  // The participants, as the proposal lists them.
  ghost predicate OfProposal(p: Payload, r: Request)
    requires r.ProposalRequest?
  {
    var ps := r.participants;
    && p.threshold == r.threshold && p.sig.Some?
    && p.sig.value.createdAt == r.createdAt && p.sig.value.expiresAt == r.createdAt + PROPOSAL_DEADLINE
    && p.sig.value.quorum.Keys == Range(|ps|)
    && (forall k | 0 <= k < |ps| :: Listed(p, ps[k], k, r.threshold))
    && (forall name :: name in p.ids ==> exists k :: 0 <= k < |ps| && ps[k].username == name)
    && (forall name :: name in p.pubKeys ==> exists k :: 0 <= k < |ps| && ps[k].username == name)
  }

  ghost predicate Listed(p: Payload, e: ParticipantEntry, k: int, threshold: int)
    requires p.sig.Some?
  {
    && k in p.sig.value.quorum
    && p.sig.value.quorum[k].username == e.username && p.sig.value.quorum[k].pubKey == e.pubKey
    && p.sig.value.quorum[k].dkgPubKey == e.dkgPubKey && p.sig.value.quorum[k].threshold == threshold
    && e.username in p.ids && p.ids[e.username] == k
    && e.username in p.pubKeys && p.pubKeys[e.username] == e.pubKey
  }

  // A participant of the proposal has answered as its messages say.
  ghost predicate Replied(d: SigParticipant, h: seq<Fact>, k: int, at: Time) {
    match (Last(h, ConfirmProposal, k), Last(h, DeclineProposal, k))
    case (Some(r), _) => d.status == SigConfirmed && d.updatedAt == CreatedAt(r)
    case (None, Some(r)) => d.status == SigDeclined && d.updatedAt == CreatedAt(r)
    case (None, None) => d.status == SigAwait && d.updatedAt == at
  }

  ghost predicate Replies(c: SigConfirmation, h: seq<Fact>) {
    && c.updatedAt == TouchTime(h)
    && forall k | k in c.quorum :: Replied(c.quorum[k], h, k, c.createdAt)
  }

  // A participant of the DKG has the name and key of the proposal and the answers of its messages.
  ghost predicate AsAnswered(d: DkgParticipant, s: SigParticipant, h: seq<Fact>, k: int) {
    && d.username == s.username && d.dkgPubKey == s.dkgPubKey
    && (forall stage: Stage :: Answer(d, stage) == Given(h, stage, k))
    && d.updatedAt == match LastDkg(h, k) case Some(r) => CreatedAt(r) case None => s.updatedAt
  }

  ghost function Given(h: seq<Fact>, stage: Stage, k: int): Bytes {
    match Last(h, DkgConfirm(stage), k)
    case Some(ConfirmationRequest(_, _, content, _, _)) => content
    case _ => []
  }

  ghost predicate OfDkg(p: Payload, h: seq<Fact>)
    requires p.sig.Some?
  {
    if p.dkg.None? then NoDkg(h)
    else
      var c := p.dkg.value;
      && c.createdAt == Clock(h, ConfirmProposal) && c.expiresAt == Clock(h, ConfirmProposal) + DKG_DEADLINE
      && c.updatedAt == DkgTime(h) && c.pubPoly == Poly(h)
      && c.quorum.Keys == p.sig.value.quorum.Keys
      && forall k | k in c.quorum :: AsAnswered(c.quorum[k], p.sig.value.quorum[k], h, k)
  }

  ghost predicate NoDkg(h: seq<Fact>) {
    forall f | f in h :: !IsDkg(f.event)
  }

  // Nobody has an error, unless a report or clashing master keys cancelled the round last.
  ghost predicate Errors(i: Inst, h: seq<Fact>) {
    i.payload.dkg.Some? ==>
      var q := i.payload.dkg.value.quorum;
      if !i.state.DkgCanceledByError? then forall k | k in q :: q[k].error.None?
      else h != [] && Blamed(q, i.state.stage, h[|h| - 1])
  }

  ghost predicate Blamed(q: DkgQuorum, stage: Stage, f: Fact) {
    if f.event == DkgError(stage) then
      && f.data.DkgErrorRequest? && f.data.pid in q && q[f.data.pid].error == f.data.error
      && q[f.data.pid].status == Errored(stage)
      && forall k | k in q && k != f.data.pid :: q[k].error.None?
    else
      && stage == MasterKeys && f.event == DkgConfirm(MasterKeys)
      && (forall k | k in q :: q[k].error == Some(KEY_MISMATCH) && q[k].status == Errored(MasterKeys))
      && exists j, k :: j in q && k in q && Answer(q[j], MasterKeys) != Answer(q[k], MasterKeys)
  }

  // A participant of a batch has replied as its message says.
  ghost predicate Signs(d: SigningParticipant, f: Option<Fact>, at: Time) {
    match f
    case None => d.partialSigns == map[] && d.error.None? && d.updatedAt == at
    case Some(f) =>
      && d.updatedAt == CreatedAt(f.data)
      && (f.event == PartialSign ==>
            d.error.None? && f.data.PartialSignsRequest? && SignsOf(f.data.signs, d.partialSigns))
      && (f.event == PartialSignError ==>
            d.partialSigns == map[] && f.data.SigningErrorRequest? && d.error == f.data.error)
  }

  function StatusOf(f: Option<Fact>): SigningStatus {
    match f
    case None => SigningAwaitSigns
    case Some(f) => if f.event == PartialSign then SignsConfirmed else SigningFailed
  }

  ghost predicate OfSigning(i: Inst, h: seq<Fact>) {
    if i.payload.signing.None? then forall f | f in h :: f.event != SigningStart
    else
      var c := i.payload.signing.value;
      && c.updatedAt == 0 && c.expiresAt == Clock(h, DkgConfirm(MasterKeys)) + SIGNING_DEADLINE
      && match LastStart(h)
         case None =>
           && c == SigningConfirmation("", 0, map[], [], Clock(h, DkgConfirm(MasterKeys)), 0, c.expiresAt)
         case Some(r) =>
           && r.SigningStartRequest? && c.batchId == r.batchId && c.initiator == r.pid && c.srcPayload == r.tasks
           && c.createdAt == r.createdAt
           && i.payload.dkg.Some? && c.quorum.Keys == i.payload.dkg.value.quorum.Keys
           && (forall k | k in c.quorum ::
                 && c.quorum[k].username == i.payload.dkg.value.quorum[k].username
                 && Signs(c.quorum[k], InBatch(h, k), r.createdAt))
           && (|| (forall k | k in c.quorum :: c.quorum[k].status == StatusOf(InBatch(h, k)))
               || (i.state == SigningIdle && forall k | k in c.quorum :: c.quorum[k].status == SigningProcess))
  }

  // The round holds exactly what the accepted messages say. (A reply that came too late cancels the
  // proposal without being stored.)
  ghost predicate Records(i: Inst, h: seq<Fact>) {
    if i.state == GlobalIdle then h == [] && i.payload == EmptyPayload(i.payload.dkgId)
    else
      && h != [] && h[0].event == InitProposal && h[0].data.ProposalRequest? && OfProposal(i.payload, h[0].data)
      && (i.state != ProposalCanceledByTimeout ==> Replies(i.payload.sig.value, h))
      && OfDkg(i.payload, h) && Errors(i, h) && OfSigning(i, h)
  }

  // ---------------------------------------------------------------- the signatures of a reply

  // No later entry is for the same message.
  ghost predicate LastFor(signs: seq<SignEntry>, k: int) {
    0 <= k < |signs| && forall l | k < l < |signs| :: signs[l].messageId != signs[k].messageId
  }

  // The messages of a reply, each with the signature of the last entry for it, and nothing else.
  ghost predicate SignsOf(signs: seq<SignEntry>, m: map<string, Bytes>) {
    && (forall id :: id in m <==> exists k :: 0 <= k < |signs| && signs[k].messageId == id)
    && (forall k | LastFor(signs, k) :: signs[k].messageId in m && m[signs[k].messageId] == signs[k].sign)
  }
}
