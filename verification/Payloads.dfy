/** The persisted payload of a round, the requests that drive it and the data it answers with. */
module Payloads {
  import opened Collections
  import opened Names

  type Byte = b: int | 0 <= b < 256
  type Bytes = seq<Byte>

  // Nanoseconds since the zero time of the clock; 0 is "not set".
  type Time = int
  const WEEK: Time := 7 * 24 * 3600 * 1_000_000_000

  const PROPOSAL_DEADLINE: Time := WEEK
  const DKG_DEADLINE: Time := WEEK
  const SIGNING_DEADLINE: Time := WEEK

  const USERNAME_MIN := 3
  const USERNAME_MAX := 150
  const PUB_KEY_MIN := 10
  const DKG_PUB_KEY_MIN := 10
  const THRESHOLD_MIN := 2
  const PARTICIPANTS_MIN := 2

  const KEY_MISMATCH := "master key is mismatched"

  // ---------------------------------------------------------------- signature proposal

  datatype SigStatus = SigAwait | SigConfirmed | SigDeclined | SigError

  datatype SigParticipant = SigParticipant(
    username: string, pubKey: Bytes, dkgPubKey: Bytes,
    status: SigStatus, threshold: int, updatedAt: Time)

  type SigQuorum = map<int, SigParticipant>

  datatype SigConfirmation = SigConfirmation(
    quorum: SigQuorum, createdAt: Time, updatedAt: Time, expiresAt: Time)

  // ---------------------------------------------------------------- DKG proposal

  datatype DkgStatus = Awaiting(stage: Stage) | Confirmed(stage: Stage) | Errored(stage: Stage)

  // The four byte fields DkgCommit, DkgDeal, DkgResponse and DkgMasterKey are one map; a stage
  // without an entry is a nil field.
  datatype DkgParticipant = DkgParticipant(
    username: string, dkgPubKey: Bytes, answers: map<Stage, Bytes>,
    status: DkgStatus, error: Option<string>, updatedAt: Time)

  type DkgQuorum = map<int, DkgParticipant>

  datatype DkgConfirmation = DkgConfirmation(
    quorum: DkgQuorum, createdAt: Time, updatedAt: Time, expiresAt: Time, pubPoly: Bytes)

  // ---------------------------------------------------------------- signing proposal

  datatype SigningStatus = SigningAwaitSigns | SignsConfirmed | SigningFailed | SigningProcess

  datatype SigningParticipant = SigningParticipant(
    username: string, status: SigningStatus, partialSigns: map<string, Bytes>,
    error: Option<string>, updatedAt: Time)

  type SigningQuorum = map<int, SigningParticipant>

  datatype Task = Task(messageId: string, file: string, payload: Bytes, rangeStart: int, rangeEnd: int)

  datatype SigningConfirmation = SigningConfirmation(
    batchId: string, initiator: int, quorum: SigningQuorum, srcPayload: seq<Task>,
    createdAt: Time, updatedAt: Time, expiresAt: Time)

  // ---------------------------------------------------------------- the dumped payload

  datatype Payload = Payload(
    dkgId: string, threshold: int,
    sig: Option<SigConfirmation>, dkg: Option<DkgConfirmation>, signing: Option<SigningConfirmation>,
    pubKeys: map<string, Bytes>, ids: map<string, int>)

  function EmptyPayload(dkgId: string): Payload {
    Payload(dkgId, 0, None, None, None, map[], map[])
  }

  predicate SigExpired(c: SigConfirmation) { c.expiresAt < c.updatedAt }
  predicate DkgExpired(c: DkgConfirmation) { c.expiresAt < c.updatedAt }
  predicate SigningExpired(c: SigningConfirmation) { c.expiresAt < c.updatedAt }

  function Answer(p: DkgParticipant, stage: Stage): Bytes {
    if stage in p.answers then p.answers[stage] else []
  }

  // ---------------------------------------------------------------- requests

  datatype ParticipantEntry = ParticipantEntry(username: string, pubKey: Bytes, dkgPubKey: Bytes)
  datatype SignEntry = SignEntry(messageId: string, sign: Bytes)

  // Undecodable is what decoding yields for data that is not of the event's request type.
  datatype Request =
    | ProposalRequest(participants: seq<ParticipantEntry>, threshold: int, createdAt: Time)
    | ReplyRequest(pid: int, createdAt: Time)
    | ConfirmationRequest(stage: Stage, pid: int, content: Bytes, pubPoly: Bytes, createdAt: Time)
    | DkgErrorRequest(pid: int, error: Option<string>, createdAt: Time)
    | SigningStartRequest(batchId: string, pid: int, tasks: seq<Task>, createdAt: Time)
    | PartialSignsRequest(batchId: string, pid: int, signs: seq<SignEntry>, createdAt: Time)
    | SigningErrorRequest(pid: int, error: Option<string>, createdAt: Time)
    | DefaultRequest(createdAt: Time)
    | Undecodable

  ghost predicate UniqueUsernames(ps: seq<ParticipantEntry>) {
    forall i, j | 0 <= i < j < |ps| :: ps[i].username != ps[j].username
  }

  predicate ValidEntry(e: ParticipantEntry) {
    && USERNAME_MIN <= |e.username| <= USERNAME_MAX
    && PUB_KEY_MIN <= |e.pubKey|
    && DKG_PUB_KEY_MIN <= |e.dkgPubKey|
  }

  ghost predicate ValidProposal(r: Request)
    requires r.ProposalRequest?
  {
    && PARTICIPANTS_MIN <= |r.participants|
    && THRESHOLD_MIN <= r.threshold <= |r.participants|
    && UniqueUsernames(r.participants)
    && (forall i | 0 <= i < |r.participants| :: ValidEntry(r.participants[i]))
    && r.createdAt != 0
  }

  predicate ValidTask(t: Task) {
    t.messageId != "" && !(|t.payload| == 0 && t.rangeStart > t.rangeEnd)
  }

  predicate ValidSign(s: SignEntry) {
    s.messageId != "" && s.sign != []
  }

  // The Validate methods of the requests.
  ghost predicate Valid(r: Request) {
    match r
    case ProposalRequest(_, _, _) => ValidProposal(r)
    case ReplyRequest(pid, at) => 0 <= pid && at != 0
    case ConfirmationRequest(_, pid, content, _, at) => 0 <= pid && content != [] && at != 0
    case DkgErrorRequest(pid, err, at) => 0 <= pid && err.Some? && at != 0
    case SigningStartRequest(batch, pid, tasks, at) =>
      batch != "" && tasks != [] && 0 <= pid && at != 0 && forall i | 0 <= i < |tasks| :: ValidTask(tasks[i])
    case PartialSignsRequest(batch, pid, signs, at) =>
      batch != "" && at != 0 && 0 <= pid && signs != [] && forall i | 0 <= i < |signs| :: ValidSign(signs[i])
    case SigningErrorRequest(pid, err, at) => 0 <= pid && err.Some? && at != 0
    case DefaultRequest(at) => at != 0
    case Undecodable => false
  }

  // ---------------------------------------------------------------- response data

  datatype Invitation = Invitation(id: int, username: string, threshold: int, dkgPubKey: Bytes, pubKey: Bytes)
  datatype Entry = Entry(id: int, username: string, content: Bytes)
  datatype SignsEntry = SignsEntry(id: int, username: string, signs: map<string, Bytes>)

  // StageInput(stage, ...) is what participants need to answer that stage: the DKG public keys
  // for commits (with the threshold every entry repeats), commits for deals, deals for responses,
  // responses for master keys.
  datatype Data =
    | NoData
    | Invitations(invitations: seq<Invitation>)
    | ProposalStatuses(statuses: map<int, SigStatus>)
    | StageInput(stage: Stage, threshold: int, entries: seq<Entry>)
    | SigningInvitations(batchId: string, initiator: int, srcPayload: seq<Task>, entries: seq<Entry>)
    | CollectedSigns(batchId: string, srcPayload: seq<Task>, signers: seq<SignsEntry>)

  datatype Error =
    | BadArgument | InvalidRequest | UnknownParticipant | WrongStatus | UnsupportedEvent | NilDereference
    | NoRoute | InternalEvent | UndeclaredTransition
    | NotRoutable | EmptyRound | Unverified | InvalidEvent | ReconstructionFailed | BadTasks

  // What a callback returns: an event that may redirect the transition, data, and the new payload.
  datatype CallbackResult = Reply(out: Event, data: Data, payload: Payload) | Refuse(err: Error)

  // ---------------------------------------------------------------- ordered participants

  ghost predicate Ascending(ids: seq<int>) {
    forall i, j | 0 <= i < j < |ids| :: ids[i] < ids[j]
  }

  ghost function Elements(ids: seq<int>): set<int> {
    set i | i in ids
  }

  ghost function Range(n: nat): (s: set<int>)
    ensures forall i :: i in s <==> 0 <= i < n
    ensures |s| == n
  {
    if n == 0 then {} else Range(n - 1) + {n - 1}
  }

  function Iota(n: nat): (ids: seq<int>)
    ensures |ids| == n && forall i | 0 <= i < n :: ids[i] == i
  {
    seq(n, i => i)
  }

  ghost predicate IsLeast(m: int, s: set<int>) {
    m in s && forall x | x in s :: m <= x
  }

  lemma LeastExists(s: set<int>)
    requires s != {}
    ensures exists m :: IsLeast(m, s)
  {
    var a := SomeOf(s);
    if s == {a} {
      assert IsLeast(a, s);
    } else {
      LeastExists(s - {a});
      var m :| IsLeast(m, s - {a});
      assert forall x | x in s :: x == a || x in s - {a};
      assert IsLeast(if a < m then a else m, s);
    }
  }

  ghost function Least(s: set<int>): (m: int)
    requires s != {}
    ensures IsLeast(m, s)
  {
    LeastExists(s);
    var m :| IsLeast(m, s);
    m
  }

  // The participant ids in ascending order.
  ghost function Sorted(s: set<int>): (ids: seq<int>)
    ensures Ascending(ids)
    ensures Elements(ids) == s
    ensures |ids| == |s|
  {
    if s == {} then []
    else
      var rest := Sorted(s - {Least(s)});
      ConsLeast(Least(s), rest, s);
      [Least(s)] + rest
  }

  lemma ConsLeast(m: int, rest: seq<int>, s: set<int>)
    requires IsLeast(m, s) && Ascending(rest) && Elements(rest) == s - {m}
    ensures Ascending([m] + rest) && Elements([m] + rest) == s
  {
    assert forall i | 0 <= i < |rest| :: rest[i] in Elements(rest);
    forall x
      ensures x in Elements([m] + rest) <==> x in s
    {
      assert x in [m] + rest <==> x == m || x in rest;
      assert x in rest <==> x in Elements(rest);
    }
  }

  // An ascending sequence is determined by its elements.
  lemma {:induction false} AscendingUnique(a: seq<int>, b: seq<int>)
    requires Ascending(a) && Ascending(b) && Elements(a) == Elements(b)
    ensures a == b
    decreases |a|
  {
    assert a != [] ==> a[0] in Elements(a);
    assert b != [] ==> b[0] in Elements(b);
    if a != [] {
      assert a[0] == b[0];
      TailElements(a);
      TailElements(b);
      AscendingUnique(a[1..], b[1..]);
      assert a == [a[0]] + a[1..] && b == [b[0]] + b[1..];
    }
  }

  lemma TailElements(a: seq<int>)
    requires Ascending(a) && a != []
    ensures Elements(a[1..]) == Elements(a) - {a[0]}
  {
    assert a == [a[0]] + a[1..];
    assert a[0] !in a[1..];
  }

  lemma SortedRange(n: nat)
    ensures Sorted(Range(n)) == Iota(n)
  {
    forall i | 0 <= i < n
      ensures i in Elements(Iota(n))
    {
      assert Iota(n)[i] == i;
    }
    AscendingUnique(Sorted(Range(n)), Iota(n));
  }

  ghost function InvitationList(ids: seq<int>, q: SigQuorum): seq<Invitation>
    requires Elements(ids) <= q.Keys
  {
    if ids == [] then []
    else
      assert ids[0] in Elements(ids) && Elements(ids[1..]) <= Elements(ids);
      var p := q[ids[0]];
      [Invitation(ids[0], p.username, p.threshold, p.dkgPubKey, p.pubKey)] + InvitationList(ids[1..], q)
  }

  ghost function KeyList(ids: seq<int>, q: DkgQuorum): seq<Entry>
    requires Elements(ids) <= q.Keys
  {
    if ids == [] then []
    else
      assert ids[0] in Elements(ids) && Elements(ids[1..]) <= Elements(ids);
      [Entry(ids[0], q[ids[0]].username, q[ids[0]].dkgPubKey)] + KeyList(ids[1..], q)
  }

  // The answers of a stage in id order. Participants without a deal are skipped, other empty
  // answers are not.
  ghost function AnswerList(ids: seq<int>, q: DkgQuorum, stage: Stage): seq<Entry>
    requires Elements(ids) <= q.Keys
  {
    if ids == [] then []
    else
      assert ids[0] in Elements(ids) && Elements(ids[1..]) <= Elements(ids);
      var rest := AnswerList(ids[1..], q, stage);
      var answer := Answer(q[ids[0]], stage);
      if stage == Deals && answer == [] then rest
      else [Entry(ids[0], q[ids[0]].username, answer)] + rest
  }

  ghost function SignerList(ids: seq<int>, q: SigningQuorum): seq<Entry>
    requires Elements(ids) <= q.Keys
  {
    if ids == [] then []
    else
      assert ids[0] in Elements(ids) && Elements(ids[1..]) <= Elements(ids);
      [Entry(ids[0], q[ids[0]].username, [])] + SignerList(ids[1..], q)
  }

  // The participants that stored a partial signature, in id order.
  ghost function SignsList(ids: seq<int>, q: SigningQuorum): seq<SignsEntry>
    requires Elements(ids) <= q.Keys
  {
    if ids == [] then []
    else
      assert ids[0] in Elements(ids) && Elements(ids[1..]) <= Elements(ids);
      var rest := SignsList(ids[1..], q);
      var p := q[ids[0]];
      if p.partialSigns == map[] then rest
      else [SignsEntry(ids[0], p.username, p.partialSigns)] + rest
  }
}
