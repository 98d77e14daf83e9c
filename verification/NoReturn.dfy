/** Unless a signing starts, a round never comes back to a dump that it left. */
module NoReturn {
  import opened Names
  import opened Payloads
  import opened NodeStep
  import opened RoundInvariant
  import opened Preservation
  import opened Steps
  import opened Runs
  import opened NodeThreshold
  import Progress
  import Replay
  import S = SigningActions

  ghost predicate NothingStarts(ins: seq<Input>) {
    forall k | 0 <= k < |ins| :: ins[k].m.event != SigningStart
  }

  // ---------------------------------------------------------------- signing

  // Signing is idle or failed, or the participant has replied to the batch.
  ghost predicate Replied(j: Inst, pid: int) {
    || j.state == SigningIdle || j.state == SigningCanceledByError
    || (j.state == SigningAwait && j.payload.signing.Some? && pid in j.payload.signing.value.quorum
        && j.payload.signing.value.quorum[pid].status != SigningAwaitSigns)
  }

  // Who gives a reply that is taken; it had not replied.
  ghost function Replier(i: Inst, x: Input): (pid: int)
    requires Answers(i, x)
    ensures pid in i.payload.signing.value.quorum
    ensures i.payload.signing.value.quorum[pid].status == SigningAwaitSigns
  {
    Decode(x.m).value.pid
  }

  lemma StoredReplies(i: Inst, x: Input, pid: int)
    requires Answers(i, x) && pid in i.payload.signing.value.quorum
    requires pid == Replier(i, x) || i.payload.signing.value.quorum[pid].status != SigningAwaitSigns
    ensures Replied(Inst(SigningAwait, With(i, x)), pid)
  {
    hide Decode, Gate, S.AddSigns;
  }

  // Without a start, signing stays idle.
  lemma IdleStays(env: Env, i: Inst, x: Input)
    requires Inv(i) && 0 < x.now && x.m.event != SigningStart
    requires i.state == SigningIdle || i.state == SigningCanceledByError
    ensures var n := After(env, Some(i), x); n == Some(i) || (n.Some? && n.value.state == SigningIdle)
    ensures After(env, Some(i), x).Some? && Inv(After(env, Some(i), x).value)
  {
    hide Inv, After, Decode, Result, Landed;
    StepChoices(env, i, x);
    AfterKeeps(env, Some(i), x);
  }

  lemma StepReplied(env: Env, j: Inst, x: Input, pid: int)
    requires Inv(j) && 0 < x.now && x.m.event != SigningStart && Replied(j, pid)
    ensures var n := After(env, Some(j), x); n.Some? && Inv(n.value) && Replied(n.value, pid)
  {
    hide Inv, Step, Answers, With, Closed, Recovery, GivesUp, Completes;
    AfterKeeps(env, Some(j), x);
    if j.state == SigningAwait {
      BatchStep(env, j, x);
      if Answers(j, x) {
        AnswersParts(j, x);
        StoredReplies(j, x, pid);
      }
    } else {
      IdleStays(env, j, x);
    }
  }

  lemma {:induction false} RunReplied(env: Env, j: Inst, ins: seq<Input>, pid: int)
    requires Inv(j) && Clocked(ins) && NothingStarts(ins) && Replied(j, pid)
    ensures var n := RoundRun(env, Some(j), ins); n.Some? && Replied(n.value, pid)
    decreases |ins|
  {
    hide Inv, After, Replied;
    if ins != [] {
      StepReplied(env, j, ins[0], pid);
      RunReplied(env, After(env, Some(j), ins[0]).value, ins[1..], pid);
    }
  }

  lemma {:induction false} RunIdle(env: Env, j: Inst, ins: seq<Input>)
    requires Inv(j) && Clocked(ins) && NothingStarts(ins) && j.state == SigningIdle
    ensures var n := RoundRun(env, Some(j), ins); n.Some? && n.value.state == SigningIdle
    decreases |ins|
  {
    hide Inv, After;
    if ins != [] {
      IdleStays(env, j, ins[0]);
      RunIdle(env, After(env, Some(j), ins[0]).value, ins[1..]);
    }
  }

  // ---------------------------------------------------------------- the first change is for good

  lemma LeavesBatch(env: Env, i: Inst, x: Input, rest: seq<Input>)
    requires Inv(i) && 0 < x.now && Clocked(rest) && NothingStarts(rest) && i.state == SigningAwait
    requires After(env, Some(i), x) != Some(i)
    ensures RoundRun(env, After(env, Some(i), x), rest) != Some(i)
  {
    hide Inv, Step, RoundRun, With, Closed, Recovery, GivesUp, Completes, Answers, Replier;
    AfterKeeps(env, Some(i), x);
    BatchStep(env, i, x);
    AnswersParts(i, x);
    var pid := Replier(i, x);
    StoredReplies(i, x, pid);
    RunReplied(env, After(env, Some(i), x).value, rest, pid);
  }

  lemma LeavesFailed(env: Env, i: Inst, x: Input, rest: seq<Input>)
    requires Inv(i) && 0 < x.now && Clocked(rest) && NothingStarts(rest) && x.m.event != SigningStart
    requires i.state == SigningIdle || i.state == SigningCanceledByError
    requires After(env, Some(i), x) != Some(i)
    ensures RoundRun(env, After(env, Some(i), x), rest) != Some(i)
  {
    hide Inv, After, RoundRun;
    IdleStays(env, i, x);
    if i.state == SigningIdle {
      IdleKeeps(env, i, x);
    } else {
      RunIdle(env, After(env, Some(i), x).value, rest);
    }
  }

  lemma IdleKeeps(env: Env, i: Inst, x: Input)
    requires Inv(i) && 0 < x.now && x.m.event != SigningStart && i.state == SigningIdle
    ensures After(env, Some(i), x) == Some(i)
  {
    hide Inv, After, Decode, Result, Landed;
    StepChoices(env, i, x);
  }

  // In the ceremony an accepted message is spent, which it was not before.
  lemma LeavesCeremony(env: Env, i: Inst, x: Input, rest: seq<Input>)
    requires Inv(i) && 0 < x.now && Clocked(rest) && Progress.InCeremony(i.state)
    requires After(env, Some(i), x) != Some(i)
    ensures RoundRun(env, After(env, Some(i), x), rest) != Some(i)
  {
    hide Inv, After, RoundRun, Decode, Result, Landed, Takes, Replay.Spent;
    StepChoices(env, i, x);
    AfterKeeps(env, Some(i), x);
    CeremonyTakes(i, x.m.event, Decode(x.m).value);
    Replay.AcceptanceSpends(i, x.m.event, Decode(x.m).value, x.now);
    Replay.RunKeepsSpent(env, After(env, Some(i), x), rest, x.m.event, Decode(x.m).value);
    if RoundRun(env, After(env, Some(i), x), rest) == Some(i) {
      Replay.SpentRefused(i, x.m.event, Decode(x.m).value);
    }
  }

  lemma CeremonyTakes(i: Inst, e: Event, r: Request)
    requires Takes(i, e, r) && Progress.InCeremony(i.state)
    ensures Progress.IsCeremony(e) && Resumed(i) == i && !Cancelled(i.state)
  {
    hide Valid, CanReply, TooLate, CanConfirm, CanFail;
  }

  lemma Leaves(env: Env, i: Inst, x: Input, rest: seq<Input>)
    requires Inv(i) && 0 < x.now && Clocked(rest) && NothingStarts(rest) && x.m.event != SigningStart
    requires After(env, Some(i), x) != Some(i)
    ensures RoundRun(env, After(env, Some(i), x), rest) != Some(i)
  {
    hide Inv, After, RoundRun;
    if i.state == SigningAwait {
      LeavesBatch(env, i, x, rest);
    } else if i.state == SigningIdle || i.state == SigningCanceledByError {
      LeavesFailed(env, i, x, rest);
    } else {
      OtherwiseCeremony(env, i, x);
      LeavesCeremony(env, i, x, rest);
    }
  }

  lemma OtherwiseCeremony(env: Env, i: Inst, x: Input)
    requires Inv(i) && 0 < x.now && After(env, Some(i), x) != Some(i)
    requires i.state != SigningAwait && i.state != SigningIdle && i.state != SigningCanceledByError
    ensures Progress.InCeremony(i.state)
  {
    hide Inv, Step, StepEffect;
    ResumedKeeps(i);
    if Cancelled(i.state) {
      StepCancelled(env, x.skip, i, x.m, x.now);
    }
  }

  // A run in which no signing starts ends at the dump with which it began if and only if no message
  // of it changes that dump.
  lemma {:induction false} NeverReturns(env: Env, i: Inst, ins: seq<Input>)
    requires Inv(i) && Clocked(ins) && NothingStarts(ins)
    ensures RoundRun(env, Some(i), ins) == Some(i)
            <==> forall k | 0 <= k < |ins| :: After(env, Some(i), ins[k]) == Some(i)
    decreases |ins|
  {
    hide Inv, After;
    if ins != [] {
      assert forall k | 1 <= k < |ins| :: ins[k] == ins[1..][k - 1];
      if After(env, Some(i), ins[0]) == Some(i) {
        NeverReturns(env, i, ins[1..]);
      } else {
        Leaves(env, i, ins[0], ins[1..]);
      }
    }
  }
}
