/** What every reachable round keeps. */
module RoundInvariant {
  import opened Names
  import opened Payloads
  import opened NodeStep
  import ProposalActions
  import DkgActions
  import SigningActions

  // ---------------------------------------------------------------- the invariant

  ghost function Size(p: Payload): nat
    requires p.sig.Some?
  {
    |p.sig.value.quorum|
  }

  // The participants of the round: numbered 0..N-1, found by their username, with one threshold.
  ghost predicate Roster(p: Payload) {
    && p.sig.Some?
    && var q := p.sig.value.quorum;
       && q.Keys == Range(|q|)
       && THRESHOLD_MIN <= p.threshold <= |q|
       && forall i | i in q :: q[i].threshold == p.threshold
                            && q[i].username in p.ids && p.ids[q[i].username] == i
  }

  ghost predicate ProposalOpen(p: Payload)
    requires p.sig.Some?
  {
    var q := p.sig.value.quorum;
    && (forall i | i in q :: q[i].status == SigAwait || q[i].status == SigConfirmed)
    && (exists i :: i in q && q[i].status == SigAwait)
    && !SigExpired(p.sig.value)
  }

  ghost predicate ProposalAgreed(p: Payload) {
    p.sig.Some? && ProposalActions.AllAgreed(p.sig.value.quorum)
  }

  // The DKG quorum has the participants of the proposal.
  ghost predicate SameRoster(p: Payload) {
    && Roster(p) && p.dkg.Some?
    && var sq, q := p.sig.value.quorum, p.dkg.value.quorum;
       && q.Keys == sq.Keys
       && forall i | i in q :: q[i].username == sq[i].username && q[i].dkgPubKey == sq[i].dkgPubKey
  }

  // A participant of a running stage: no error, all earlier answers and none ahead, on time.
  ghost predicate OnTrack(d: DkgParticipant, stage: Stage, deadline: Time) {
    && d.error.None?
    && (d.status == Awaiting(stage) || d.status == Confirmed(stage))
    && (forall s: Stage | Index(s) < Index(stage) :: Answer(d, s) != [])
    && (d.status == Confirmed(stage) <==> Answer(d, stage) != [])
    && (forall s: Stage | Index(stage) < Index(s) :: Answer(d, s) == [])
    && (stage != Commits || d.status == Confirmed(stage) ==> d.updatedAt <= deadline)
  }

  ghost predicate StageOpen(p: Payload, stage: Stage)
    requires p.dkg.Some?
  {
    var c := p.dkg.value;
    && (forall i | i in c.quorum :: OnTrack(c.quorum[i], stage, c.expiresAt))
    && (exists i :: i in c.quorum && c.quorum[i].status == Awaiting(stage))
    && !DkgExpired(c)
    && (stage == MasterKeys ==> !DkgActions.KeysDiffer(c.quorum))
  }

  ghost predicate Finished(d: DkgParticipant, deadline: Time) {
    && d.error.None?
    && d.status == Confirmed(MasterKeys)
    && (forall s: Stage :: Answer(d, s) != [])
    && d.updatedAt <= deadline
  }

  // The distributed key exists: everyone answered every stage in time, with one master key.
  ghost predicate DkgComplete(p: Payload) {
    && SameRoster(p)
    && var c := p.dkg.value;
       && (forall i | i in c.quorum :: Finished(c.quorum[i], c.expiresAt))
       && (forall i, j | i in c.quorum && j in c.quorum ::
             Answer(c.quorum[i], MasterKeys) == Answer(c.quorum[j], MasterKeys))
  }

  ghost predicate SigningReady(p: Payload) {
    DkgComplete(p) && p.signing.Some? && !SigningExpired(p.signing.value) && p.signing.value.updatedAt == 0
  }

  ghost predicate SignerKeeps(d: SigningParticipant) {
    && d.status != SigningProcess
    && (d.partialSigns != map[] <==> d.status == SignsConfirmed)
  }

  // A batch that is neither collected nor cancelled: fewer than t signed, at most N-t failed.
  ghost predicate SigningOpen(p: Payload)
    requires p.signing.Some? && p.sig.Some?
  {
    var q := p.signing.value.quorum;
    && q.Keys == p.sig.value.quorum.Keys
    && (forall i | i in q :: SignerKeeps(q[i]))
    && |SigningActions.WithStatus(q, SignsConfirmed)| < p.threshold
    && |SigningActions.WithStatus(q, SigningFailed)| <= Size(p) - p.threshold
  }

  ghost predicate Inv(i: Inst) {
    var p := i.payload;
    match i.state
    case GlobalIdle => p.sig.None? && p.dkg.None? && p.signing.None? && p.ids == map[]
    case AwaitParticipants => Roster(p) && ProposalOpen(p) && p.dkg.None? && p.signing.None?
    case ProposalCanceledByParticipant | ProposalCanceledByTimeout => p.sig.Some? && p.dkg.None? && p.signing.None?
    case DkgAwait(stage) => SameRoster(p) && StageOpen(p, stage) && p.signing.None?
    case DkgCanceledByError(_) => p.sig.Some? && AnyDkgError(p) && p.signing.None?
    case DkgCanceledByTimeout(_) => p.sig.Some? && p.signing.None?
    case SigningIdle => SigningReady(p)
    case SigningAwait => SigningReady(p) && SigningOpen(p)
    case SigningCanceledByError => SigningReady(p)
    case _ => false
  }

  // Errors that would be a crash of the node or a move the tables do not declare.
  predicate Fatal(e: Error) {
    e == NilDereference || e == UndeclaredTransition
  }

  // ---------------------------------------------------------------- what it does not depend on

  // The payloads differ in communication keys and the public polynomial only.
  ghost predicate SameButKeys(p: Payload, p1: Payload) {
    && (p.dkg.Some? <==> p1.dkg.Some?)
    && p1 == p.(pubKeys := p1.pubKeys, dkg := p1.dkg)
    && (p.dkg.Some? ==> p1.dkg.value == p.dkg.value.(pubPoly := p1.dkg.value.pubPoly))
  }

  lemma PartsIgnoreKeys(p: Payload, p1: Payload)
    requires SameButKeys(p, p1)
    ensures Roster(p1) <==> Roster(p)
    ensures SameRoster(p1) <==> SameRoster(p)
    ensures AnyDkgError(p1) <==> AnyDkgError(p)
    ensures SigningReady(p1) <==> SigningReady(p)
    ensures p.sig.Some? ==> (ProposalOpen(p1) <==> ProposalOpen(p))
    ensures p.dkg.Some? ==> forall stage: Stage :: StageOpen(p1, stage) <==> StageOpen(p, stage)
    ensures p.sig.Some? && p.signing.Some? ==> (SigningOpen(p1) <==> SigningOpen(p))
  {
    hide DkgActions.KeysDiffer, OnTrack, Finished, SignerKeeps, SigningActions.WithStatus, Range;
  }

  // New keys or a new polynomial leave a sound round sound.
  lemma InvIgnoresKeys(i: Inst, p1: Payload)
    requires Inv(i) && SameButKeys(i.payload, p1)
    ensures Inv(Inst(i.state, p1))
  {
    hide DkgActions.KeysDiffer, OnTrack, Finished, SignerKeeps, SigningActions.WithStatus, Range;
    PartsIgnoreKeys(i.payload, p1);
    hide Roster, SameRoster, StageOpen, SigningReady, SigningOpen, ProposalOpen, AnyDkgError;
  }

  lemma RosterRange(p: Payload)
    requires SameRoster(p)
    ensures p.sig.Some? && p.dkg.Some? && p.dkg.value.quorum.Keys == Range(Size(p))
  {
  }
}
