/** Safety of whole runs: completed ceremonies, aborted ones, rejected messages. */
module Safety {
  import opened Names
  import opened Payloads
  import opened Ceremony
  import opened NodeStep
  import opened Moves
  import opened RoundInvariant
  import opened Preservation
  import opened Steps
  import opened Runs
  import D = DkgActions

  // ---------------------------------------------------------------- completed ceremonies

  // Numbered participants 0..N-1, a threshold between 2 and N, and from each participant a non-empty
  // commit, deal, response and master key, the same master key from all, no reported error, and a
  // last answer within the deadline.
  ghost predicate Completed(p: Payload) {
    && p.sig.Some? && p.dkg.Some?
    && var n, c := |p.sig.value.quorum|, p.dkg.value;
       && p.sig.value.quorum.Keys == c.quorum.Keys == Range(n)
       && 2 <= p.threshold <= n
       && (forall i | 0 <= i < n :: i in c.quorum && c.quorum[i].error.None?
             && c.quorum[i].updatedAt <= c.expiresAt
             && forall stage: Stage :: Answer(c.quorum[i], stage) != [])
       && (forall i, j | 0 <= i < n && 0 <= j < n :: i in c.quorum && j in c.quorum
             && Answer(c.quorum[i], MasterKeys) == Answer(c.quorum[j], MasterKeys))
  }

  // Every round that reached signing has completed the DKG.
  lemma DkgCompletion(env: Env, ins: seq<Input>)
    requires Clocked(ins) && RoundRun(env, None, ins).Some? && InSigning(RoundRun(env, None, ins).value.state)
    ensures Completed(RoundRun(env, None, ins).value.payload)
  {
    hide RoundRun;
    RoundRunKeeps(env, None, ins);
    SigningFacts(RoundRun(env, None, ins).value);
  }

  lemma SigningFacts(i: Inst)
    requires Inv(i) && InSigning(i.state)
    ensures Completed(i.payload)
  {
    hide Inv, SigningOpen, SigningExpired, DkgComplete, Completed;
    Parts(i);
    CompleteFacts(i.payload);
  }

  lemma CompleteFacts(p: Payload)
    requires DkgComplete(p)
    ensures Completed(p)
  {
    hide Answer, Finished, Range;
    var n, c := |p.sig.value.quorum|, p.dkg.value;
    forall k | 0 <= k < n
      ensures k in c.quorum && Finished(c.quorum[k], c.expiresAt)
    {
      InRange(k, n);
    }
    FinishedFacts(c.quorum, c.expiresAt);
  }

  lemma InRange(k: int, n: nat)
    requires 0 <= k < n
    ensures k in Range(n)
  {
  }

  lemma FinishedFacts(q: DkgQuorum, deadline: Time)
    ensures forall k | k in q && Finished(q[k], deadline) ::
              q[k].error.None? && q[k].updatedAt <= deadline && forall stage: Stage :: Answer(q[k], stage) != []
  {
    hide Answer;
  }

  // ---------------------------------------------------------------- no crash, no undeclared move

  // On every run no step dereferences a missing part of the payload, none makes a move the
  // tables do not declare, and the states between two machines are never saved.
  lemma NeverCrashes(env: Env, ins: seq<Input>, x: Input)
    requires Clocked(ins) && 0 < x.now
    ensures var out := Step(env, x.skip, RoundRun(env, None, ins), x.m, x.now);
            && (out.err.Some? ==> out.err.value != NilDereference && out.err.value != UndeclaredTransition)
            && (out.saved.Some? ==>
                  !Transient(out.saved.value.state) && out.saved.value.state != SigningCanceledByTimeout)
  {
    hide Step, RoundRun, StepEffect;
    RoundRunKeeps(env, None, ins);
    StepOnBase(env, RoundRun(env, None, ins), x);
    var out := Step(env, x.skip, RoundRun(env, None, ins), x.m, x.now);
    if out.saved.Some? {
      StableStates(out.saved.value);
    }
  }

  lemma StableStates(i: Inst)
    requires Inv(i)
    ensures !Transient(i.state) && i.state != SigningCanceledByTimeout && i.state != NoState
  {
    hide Roster, ProposalOpen, SameRoster, StageOpen, SigningReady, SigningOpen, AnyDkgError;
  }

  // ---------------------------------------------------------------- aborted ceremonies

  // A cancelled proposal or DKG is never changed by a step again, whatever messages it hears. (A
  // reinitialisation is no step of the machines; ClientRounds says what it does.)
  lemma {:induction false} CancelledForever(env: Env, i: Inst, ins: seq<Input>)
    requires Inv(i) && Cancelled(i.state)
    ensures RoundRun(env, Some(i), ins) == Some(i)
    decreases |ins|
  {
    hide Step, Inv, AnyDkgError;
    if ins != [] {
      ResumedKeeps(i);
      StepCancelled(env, ins[0].skip, i, ins[0].m, ins[0].now);
      CancelledForever(env, i, ins[1..]);
    }
  }

  // A round that a report or a key mismatch cancelled shows who is to blame, so no step changes it
  // again.
  lemma CancelledByReport(env: Env, ins: seq<Input>, more: seq<Input>)
    requires Clocked(ins) && RoundRun(env, None, ins).Some? && RoundRun(env, None, ins).value.state.DkgCanceledByError?
    ensures AnyDkgError(RoundRun(env, None, ins).value.payload)
    ensures RoundRun(env, RoundRun(env, None, ins), more) == RoundRun(env, None, ins)
  {
    hide RoundRun, AnyDkgError;
    RoundRunKeeps(env, None, ins);
    CancelledForever(env, RoundRun(env, None, ins).value, more);
  }

  lemma {:induction false} RunSplits(env: Env, saved: Option<Inst>, a: seq<Input>, b: seq<Input>)
    ensures RoundRun(env, saved, a + b) == RoundRun(env, RoundRun(env, saved, a), b)
    decreases |a|
  {
    hide After;
    if a == [] {
      assert a + b == b;
    } else {
      assert (a + b)[0] == a[0] && (a + b)[1..] == a[1..] + b;
      RunSplits(env, After(env, saved, a[0]), a[1..], b);
    }
  }

  // A late confirmation cancels the stage.
  lemma LateCancels(env: Env, i: Inst, x: Input)
    requires Inv(i) && 0 < x.now && i.state.DkgAwait? && i.payload.dkg.Some? && Gate(x.skip, i.payload, x.m)
    requires Decode(x.m).Some? && x.m.event == DkgConfirm(i.state.stage)
    requires CanConfirm(i.state.stage, i.payload, Decode(x.m).value)
    requires i.payload.dkg.value.expiresAt < Decode(x.m).value.createdAt
    ensures After(env, Some(i), x).Some? && Inv(After(env, Some(i), x).value)
    ensures After(env, Some(i), x).value.state == DkgCanceledByTimeout(i.state.stage)
  {
    hide Step, Inv, Gate, CanConfirm, D.Stored;
    StepSays(env, x.skip, i, x.m, x.now);
  }

  // In a run that reaches signing, every confirmation that a DKG stage took was in time.
  lemma AlwaysInTime(env: Env, ins: seq<Input>, k: nat)
    requires Clocked(ins) && k < |ins| && RoundRun(env, None, ins).Some?
    requires InSigning(RoundRun(env, None, ins).value.state)
    requires var i := RoundRun(env, None, ins[..k]);
             && i.Some? && i.value.state.DkgAwait? && i.value.payload.dkg.Some?
             && Gate(ins[k].skip, i.value.payload, ins[k].m)
             && Decode(ins[k].m).Some? && ins[k].m.event == DkgConfirm(i.value.state.stage)
             && CanConfirm(i.value.state.stage, i.value.payload, Decode(ins[k].m).value)
    ensures Decode(ins[k].m).value.createdAt <= RoundRun(env, None, ins[..k]).value.payload.dkg.value.expiresAt
  {
    hide Inv, Gate, Valid, After, Decode;
    var i, x, rest := RoundRun(env, None, ins[..k]).value, ins[k], ins[k + 1..];
    RoundRunKeeps(env, None, ins[..k]);
    assert ins == ins[..k] + ([x] + rest);
    RunSplits(env, None, ins[..k], [x] + rest);
    assert ([x] + rest)[0] == x && ([x] + rest)[1..] == rest;
    assert RoundRun(env, None, ins) == RoundRun(env, After(env, Some(i), x), rest);
    if i.payload.dkg.value.expiresAt < Decode(x.m).value.createdAt {
      LateCancels(env, i, x);
      CancelledForever(env, After(env, Some(i), x).value, rest);
    }
  }

  // What a node does with a loaded round before it looks at the message: a ceremony that ended in an
  // error somebody has, or in a timeout, is left alone; a signing that ended in an error or a timeout
  // is restarted; all else goes on. (No run saves a timed-out signing; a dump may hold one.)
  lemma RecoveredExactly(i: Inst, now: Time)
    ensures Recover(i, now)
            == match i.state
               case DkgCanceledByError(_) =>
                 if AnyDkgError(i.payload) then Aborted
                 else if i.payload.signing.Some? then RecoverFailed(NoRoute) else Recovered(i)
               case SigningCanceledByError =>
                 if AnyDkgError(i.payload) then Aborted
                 else if i.payload.signing.Some? then Recovered(Inst(SigningIdle, i.payload)) else Recovered(i)
               case ProposalCanceledByTimeout | DkgCanceledByTimeout(_) => Aborted
               case SigningCanceledByTimeout =>
                 if i.payload.signing.Some? then Recovered(Inst(SigningIdle, i.payload))
                 else RecoverFailed(NilDereference)
               case _ => Recovered(i)
  {
    hide StateName, HasSuffix, HasPrefix, AnyDkgError, Do;
    ErrorNames(i.state);
    TimeoutNames(i.state);
    if EndsInTimeout(i.state) {
      TimeoutPrefixes(i.state);
    }
    TimeoutNames(SigningIdle);
    if InSigning(i.state) && i.state != SigningIdle && i.state != SigningAwait {
      DoRestart(i.state, i.payload, DefaultRequest(now));
    }
    if i.state.DkgCanceledByError? {
      NoRestart(i.state, i.payload, DefaultRequest(now));
    }
  }

  lemma NoRestart(s: State, p: Payload, r: Request)
    requires s.DkgCanceledByError?
    ensures Do(s, p, SigningRestart, r) == Rejected(NoRoute)
  {
  }

  // The machine would time a batch out whose time is past its deadline; no run has one.
  lemma ExpiredBatchTimesOut(p: Payload, data: Data)
    requires p.signing.Some? && p.signing.value.expiresAt < p.signing.value.updatedAt
    ensures SettleSigning(p, data) == Moved(SigningCanceledByTimeout, p, data)
  {
    hide SignsList, Sorted;
  }

  // A failed signing is different: its DKG is intact, and the next message that reaches the
  // machines restarts it.
  lemma SigningRestarts(env: Env, ins: seq<Input>, x: Input)
    requires Clocked(ins) && 0 < x.now
    requires RoundRun(env, None, ins).Some? && RoundRun(env, None, ins).value.state == SigningCanceledByError
    requires Gate(x.skip, RoundRun(env, None, ins).value.payload, x.m)
    ensures var i := RoundRun(env, None, ins).value;
            var out := Step(env, x.skip, Some(i), x.m, x.now);
            && DkgComplete(i.payload) && !AnyDkgError(i.payload)
            && out.saved.Some?
            && (out.saved.value == Inst(SigningIdle, i.payload)
                || (x.m.event == SigningStart && out.saved.value.state == SigningAwait && out.err.None?))
  {
    hide Step, RoundRun, Gate, AnyDkgError, DkgComplete, Valid, Started, Asked;
    RoundRunKeeps(env, None, ins);
    var i := RoundRun(env, None, ins).value;
    ResumedKeeps(i);
    StepSays(env, x.skip, i, x.m, x.now);
  }

  // ---------------------------------------------------------------- rejected messages

  // The message is signed with the key registered for its sender.
  ghost predicate SignedFor(p: Payload, m: Message) {
    m.sender != "" && m.sender in p.pubKeys && p.pubKeys[m.sender] in m.signers
  }

  // While signatures are checked, a message that is not signed for the round, other than a proposal,
  // changes nothing and is refused as such - or because no machine is left for the round.
  lemma UnsignedRefused(env: Env, i: Inst, m: Message, now: Time)
    requires m.event != InitProposal && !SignedFor(i.payload, m)
    ensures Step(env, false, Some(i), m, now)
            == StepOut(Some(i), None, None, Some(if Routable(i.state) then Unverified else NotRoutable))
  {
    hide Recover, Deliver, Routable;
  }

  lemma UnsignedStep(env: Env, i: Inst, x: Input)
    requires Inv(i) && i.state != GlobalIdle && 0 < x.now && !x.skip && !SignedFor(i.payload, x.m)
    ensures After(env, Some(i), x) != Some(i) <==> x.m.event == InitProposal && i.state == SigningCanceledByError
    ensures After(env, Some(i), x) != Some(i) ==> After(env, Some(i), x) == Some(Inst(SigningIdle, i.payload))
  {
    hide Step, Inv, Accepts, Result, AnyDkgError, Takes, Decode, SignedFor;
    ResumedKeeps(i);
    StepSays(env, x.skip, i, x.m, x.now);
    ProposedAlready(i, x);
    if x.m.event != InitProposal {
      UnsignedRefused(env, i, x.m, x.now);
    }
  }

  // While signatures are checked, the step of a message that is not signed with the key registered for
  // its sender changes a round that was proposed if and only if it is a second proposal, which is not
  // checked, and the round is a failed signing: the proposal is refused, but the signing restarts.
  lemma OnlySignedMessages(env: Env, ins: seq<Input>, x: Input)
    requires Clocked(ins) && 0 < x.now && !x.skip && RoundRun(env, None, ins).Some?
    requires RoundRun(env, None, ins).value.state != GlobalIdle
    requires !SignedFor(RoundRun(env, None, ins).value.payload, x.m)
    ensures var i := RoundRun(env, None, ins).value;
            && (After(env, Some(i), x) != Some(i) <==> x.m.event == InitProposal && i.state == SigningCanceledByError)
            && (After(env, Some(i), x) != Some(i) ==> After(env, Some(i), x) == Some(Inst(SigningIdle, i.payload)))
  {
    hide RoundRun, Inv, After, SignedFor;
    RoundRunKeeps(env, None, ins);
    UnsignedStep(env, RoundRun(env, None, ins).value, x);
  }

  // A second proposal is refused.
  lemma ProposedAlready(i: Inst, x: Input)
    requires i.state != GlobalIdle
    ensures x.m.event == InitProposal ==> !Accepts(Resumed(i), x.m)
  {
    hide Valid;
  }

  // A message whose step fails leaves the saved round as it was, except that a first message
  // creates an idle instance and that a failed signing is restarted.
  lemma RejectionKeeps(env: Env, ins: seq<Input>, x: Input)
    requires Clocked(ins) && 0 < x.now
    ensures var saved := RoundRun(env, None, ins);
            var out := Step(env, x.skip, saved, x.m, x.now);
            out.err.Some? ==>
              && out.op.None? && out.posted.None?
              && (|| out.saved == saved
                  || (saved.None? && out.saved == Some(Inst(GlobalIdle, EmptyPayload(TrimSpace(x.m.round)))))
                  || (saved.Some? && saved.value.state == SigningCanceledByError
                      && out.saved == Some(Inst(SigningIdle, saved.value.payload))))
  {
    hide Step, RoundRun, Inv, Gate, Accepts, Result, TrimSpace;
    RoundRunKeeps(env, None, ins);
    var saved := RoundRun(env, None, ins);
    StepOnBase(env, saved, x);
  }
}
