/** States and events of the three machines, with the names the system dumps and compares. */
module Names {

  datatype Option<+T> = None | Some(value: T)

  // The four data-carrying stages of a DKG round, in order.
  datatype Stage = Commits | Deals | Responses | MasterKeys

  // NoState is the empty name, which a response carries when a callback failed.
  datatype State =
    | NoState
    | GlobalIdle
    | GlobalDone
    | AwaitParticipants
    | ProposalCanceledByParticipant
    | ProposalCanceledByTimeout
    | ProposalCollected
    | DkgAwait(stage: Stage)
    | DkgCanceledByError(stage: Stage)
    | DkgCanceledByTimeout(stage: Stage)
    | MasterKeyCollected
    | SigningIdle
    | SigningAwait
    | SigningCanceledByTimeout
    | SigningCanceledByError
    | SigningCollected

  // NoEvent is the empty name: a callback that returns it keeps the event it was called with.
  // OtherEvent stands for every name that no machine and no client knows.
  datatype Event =
    | NoEvent
    | InitProposal
    | ConfirmProposal
    | DeclineProposal
    | ValidateProposal
    | ProposalValidated
    | ProposalTimeout
    | ProposalDeclined
    | DkgInit
    | DkgConfirm(stage: Stage)
    | DkgError(stage: Stage)
    | DkgTimeoutInternal(stage: Stage)
    | DkgErrorInternal(stage: Stage)
    | DkgConfirmedInternal(stage: Stage)
    | DkgValidate(stage: Stage)
    | SigningInit
    | SigningStart
    | PartialSign
    | PartialSignError
    | SigningTimeoutInternal
    | SigningErrorInternal
    | SigningValidate
    | SigningConfirmedInternal
    | SigningRestart
    | SignatureReconstructed
    | SignatureReconstructionFailed
    | ReinitDkg
    | OtherEvent(name: string)

  // The machines of the pool.
  datatype MachineId = ProposalMachine | DkgMachine | SigningMachine

  function Index(stage: Stage): (i: nat)
    ensures i < 4
  {
    match stage
    case Commits => 0
    case Deals => 1
    case Responses => 2
    case MasterKeys => 3
  }

  function NextStage(stage: Stage): Stage
    requires stage != MasterKeys
  {
    match stage
    case Commits => Deals
    case Deals => Responses
    case Responses => MasterKeys
  }

  function StageWord(stage: Stage): string {
    match stage
    case Commits => "commits"
    case Deals => "deals"
    case Responses => "responses"
    case MasterKeys => "master_key"
  }

  // A state name is its family, what it says of the state, and its last word.
  function Family(s: State): string {
    match s
    case NoState => ""
    case GlobalIdle | GlobalDone => "_"
    case AwaitParticipants | ProposalCanceledByParticipant => "state_sig_"
    case ProposalCanceledByTimeout | ProposalCollected => "state_sig_"
    case DkgAwait(_) | DkgCanceledByError(_) | DkgCanceledByTimeout(_) | MasterKeyCollected => "state_dkg"
    case SigningIdle => "stage_signing"
    case SigningAwait | SigningCanceledByTimeout | SigningCanceledByError | SigningCollected => "state_signing_"
  }

  function Middle(s: State): string {
    match s
    case NoState | GlobalIdle | GlobalDone | SigningIdle => ""
    case AwaitParticipants => "proposal_await_participants"
    case ProposalCanceledByParticipant | ProposalCanceledByTimeout => "proposal_canceled_by"
    case ProposalCollected => "proposal"
    case DkgAwait(stage) => "_" + StageWord(stage) + "_await"
    case DkgCanceledByTimeout(Responses) => "_responses_sending_canceled_by"
    case DkgCanceledByError(stage) => "_" + StageWord(stage) + "_await_canceled_by"
    case DkgCanceledByTimeout(stage) => "_" + StageWord(stage) + "_await_canceled_by"
    case MasterKeyCollected => "_master_key"
    case SigningAwait => "await_partial"
    case SigningCanceledByTimeout | SigningCanceledByError => "partial_signs_await_cancelled_by"
    case SigningCollected => "partial_signs"
  }

  function LastWord(s: State): string {
    match s
    case NoState => ""
    case GlobalIdle | SigningIdle => "_idle"
    case GlobalDone => "_done"
    case AwaitParticipants | DkgAwait(_) => "_confirmations"
    case ProposalCanceledByParticipant => "_participant"
    case ProposalCanceledByTimeout | DkgCanceledByTimeout(_) | SigningCanceledByTimeout => "_timeout"
    case DkgCanceledByError(_) | SigningCanceledByError => "_error"
    case ProposalCollected | MasterKeyCollected | SigningCollected => "_collected"
    case SigningAwait => "_signs"
  }

  function StateName(s: State): string {
    Family(s) + Middle(s) + LastWord(s)
  }

  predicate HasSuffix(s: string, suffix: string) {
    |suffix| <= |s| && s[|s| - |suffix|..] == suffix
  }

  predicate HasPrefix(s: string, prefix: string) {
    |prefix| <= |s| && s[..|prefix|] == prefix
  }

  predicate EndsInError(s: State) {
    s.DkgCanceledByError? || s.SigningCanceledByError?
  }

  predicate EndsInTimeout(s: State) {
    s.ProposalCanceledByTimeout? || s.DkgCanceledByTimeout? || s.SigningCanceledByTimeout?
  }

  lemma SuffixOfConcat(a: string, w: string, u: string)
    ensures |u| <= |w| ==> (HasSuffix(a + w, u) <==> HasSuffix(w, u))
    ensures 0 < |w| && 0 < |u| && w[|w| - 1] != u[|u| - 1] ==> !HasSuffix(a + w, u)
  {
    var n := a + w;
    if |u| <= |w| {
      assert n[|n| - |u|..] == w[|w| - |u|..];
    }
    if 0 < |w| && 0 < |u| <= |n| {
      assert n[|n| - |u|..][|u| - 1] == w[|w| - 1];
    }
  }

  lemma PrefixOfConcat(a: string, b: string, u: string)
    ensures |u| <= |a| ==> (HasPrefix(a + b, u) <==> HasPrefix(a, u))
    ensures forall i | 0 <= i < |u| && i < |a| :: a[i] != u[i] ==> !HasPrefix(a + b, u)
  {
    var n := a + b;
    if |u| <= |a| {
      assert n[..|u|] == a[..|u|];
    }
    forall i | 0 <= i < |u| && i < |a| && a[i] != u[i]
      ensures !HasPrefix(n, u)
    {
      if |u| <= |n| {
        assert n[..|u|][i] == a[i];
      }
    }
  }

  // The node recognises failed rounds by the endings of state names; these are the states it means.
  lemma ErrorNames(s: State)
    ensures HasSuffix(StateName(s), "_error") <==> EndsInError(s)
  {
    SuffixOfConcat(Family(s) + Middle(s), LastWord(s), "_error");
  }

  lemma TimeoutNames(s: State)
    ensures HasSuffix(StateName(s), "_timeout") <==> EndsInTimeout(s)
  {
    SuffixOfConcat(Family(s) + Middle(s), LastWord(s), "_timeout");
    if s.ProposalCanceledByParticipant? {
      assert "_participant"[4..][0] == 't';
    }
  }

  // Among the timed-out states, the name prefix tells ceremonies that are over from signings
  // that restart.
  lemma TimeoutPrefixes(s: State)
    requires EndsInTimeout(s)
    ensures HasPrefix(StateName(s), "state_signing_") <==> s.SigningCanceledByTimeout?
    ensures HasPrefix(StateName(s), "state_sig_") || HasPrefix(StateName(s), "state_dkg")
            <==> !s.SigningCanceledByTimeout?
  {
    var f, rest := Family(s), Middle(s) + LastWord(s);
    assert StateName(s) == f + rest;
    PrefixOfConcat(f, rest, "state_signing_");
    PrefixOfConcat(f, rest, "state_sig_");
    PrefixOfConcat(f, rest, "state_dkg");
    if s.SigningCanceledByTimeout? {
      assert f[9] == 'n' && f[6] == 's';
    } else if s.ProposalCanceledByTimeout? {
      assert f[9] == '_' && f[6] == 's';
    } else {
      assert f[6] == 'd';
    }
  }
}
