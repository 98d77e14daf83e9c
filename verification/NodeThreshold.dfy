/** A signing batch at a node: what recovery adds to the threshold, and how a batch gets stuck. */
module NodeThreshold {
  import opened Names
  import opened Payloads
  import opened Ceremony
  import opened NodeStep
  import opened Moves
  import opened RoundInvariant
  import opened Preservation
  import opened Steps
  import opened Runs
  import opened Threshold
  import History
  import Provenance
  import Safety
  import S = SigningActions

  // ---------------------------------------------------------------- one message

  // The message is a reply to the batch that the machine takes.
  ghost predicate Answers(i: Inst, x: Input) {
    && i.payload.signing.Some? && i.payload.sig.Some? && IsSign(x.m.event) && Gate(x.skip, i.payload, x.m)
    && Decode(x.m).Some? && CanSign(x.m.event, i.payload, Decode(x.m).value)
  }

  ghost function ReplyIn(x: Input): Threshold.Reply
    requires Decode(x.m).Some?
  {
    Threshold.Reply.Reply(x.m.event, Decode(x.m).value)
  }

  // The payload with the reply stored.
  ghost function With(i: Inst, x: Input): Payload
    requires Answers(i, x)
  {
    SignStored(x.m.event, i.payload, Decode(x.m).value)
  }

  // What recovery makes of the stored signatures together with this reply's.
  ghost function Recovery(env: Env, i: Inst, x: Input): Option<Signatures>
    requires Answers(i, x) && i.payload.dkg.Some?
  {
    env.reconstruct(i.payload.dkg.value.pubPoly, Batch(With(i, x).signing.value), i.payload.threshold,
      |i.payload.pubKeys|)
  }

  // The reply completes the t signatures.
  ghost predicate Completes(i: Inst, x: Input) {
    Answers(i, x) && x.m.event == PartialSign && Signed(i.payload) + 1 == i.payload.threshold
  }

  // The reply is one failure too many.
  ghost predicate GivesUp(i: Inst, x: Input) {
    Answers(i, x) && x.m.event == PartialSignError && Gaveup(i.payload) == Size(i.payload) - i.payload.threshold
  }

  // What a node does with a message while it awaits replies.
  ghost predicate BatchEffect(env: Env, i: Inst, x: Input, out: StepOut) {
    && i.payload.dkg.Some?
    && if !Answers(i, x) then out.saved == Some(i) && out.posted.None?
       else if Completes(i, x) then
         match Recovery(env, i, x)
         case None => out.saved == Some(i) && out.posted.None? && out.err == Some(ReconstructionFailed)
         case Some(sigs) =>
           out.saved == Some(Inst(SigningIdle, Closed(With(i, x)))) && out.posted == Some(sigs) && out.err.None?
       else
         && out.saved == Some(Inst(if GivesUp(i, x) then SigningCanceledByError else SigningAwait, With(i, x)))
         && out.posted.None? && out.err.None?
  }

  lemma OthersRefused(env: Env, i: Inst, x: Input)
    requires Inv(i) && i.state == SigningAwait && 0 < x.now && !Answers(i, x)
    ensures var out := Step(env, x.skip, Some(i), x.m, x.now); out.saved == Some(i) && out.posted.None?
  {
    hide Step, Inv, Gate, Decode, CanSign, SigningReady, SigningOpen, Result;
    Parts(i);
    StepSays(env, x.skip, i, x.m, x.now);
  }

  lemma ReplyOutcome(i: Inst, x: Input)
    requires Answers(i, x) && i.payload.threshold <= Size(i.payload)
    ensures var res := SignOutcome(x.m.event, i.payload, Decode(x.m).value);
            if Completes(i, x) then res == Moved(SigningCollected, Closed(With(i, x)), Batch(With(i, x).signing.value))
            else res == Moved(if GivesUp(i, x) then SigningCanceledByError else SigningAwait, With(i, x), NoData)
  {
    hide Decode, CanSign, Gate, SignStored, Signed, Gaveup, Closed, Batch;
  }

  lemma ReplyHandled(env: Env, i: Inst, x: Input)
    requires Inv(i) && i.state == SigningAwait && 0 < x.now && Answers(i, x)
    ensures Step(env, x.skip, Some(i), x.m, x.now)
            == Conclude(env, i, x.m, SignOutcome(x.m.event, i.payload, Decode(x.m).value), x.now)
    ensures SigningReady(i.payload)
  {
    hide Step, Inv, Gate, Decode, CanSign, SigningReady, SigningOpen, SignOutcome, Sign, Conclude;
    Parts(i);
    StepRuns(env, x.skip, i, x.m, x.now);
    SignSays(x.m.event, i.payload, Decode(x.m).value);
  }

  lemma StoredFrame(i: Inst, x: Input)
    requires Answers(i, x)
    ensures With(i, x).dkg == i.payload.dkg && With(i, x).threshold == i.payload.threshold
    ensures With(i, x).pubKeys == i.payload.pubKeys && With(i, x).signing.Some?
    ensures Closed(With(i, x)).dkg == i.payload.dkg && Closed(With(i, x)).threshold == i.payload.threshold
    ensures Closed(With(i, x)).pubKeys == i.payload.pubKeys
  {
    hide Decode, CanSign, Gate, Signer, S.Processing;
  }

  lemma CollectedConcluded(env: Env, i: Inst, x: Input)
    requires Completes(i, x) && i.payload.dkg.Some?
    ensures Conclude(env, i, x.m, Moved(SigningCollected, Closed(With(i, x)), Batch(With(i, x).signing.value)), x.now)
            == match Recovery(env, i, x)
               case None => StepOut(Some(i), None, None, Some(ReconstructionFailed))
               case Some(sigs) => StepOut(Some(Inst(SigningIdle, Closed(With(i, x)))), None, Some(sigs), None)
  {
    hide Do, With, Closed, Decode, CanSign, Gate, SignsList, Sorted, S.Processing;
    StoredFrame(i, x);
    DoRestart(SigningCollected, Closed(With(i, x)), DefaultRequest(x.now));
  }

  lemma BatchStep(env: Env, i: Inst, x: Input)
    requires Inv(i) && i.state == SigningAwait && 0 < x.now
    ensures BatchEffect(env, i, x, Step(env, x.skip, Some(i), x.m, x.now))
  {
    hide Step, Inv, Answers, SignOutcome, Closed, Batch, With, Recovery, Signed, Gaveup, Decode, SigningReady,
         SigningOpen, Do;
    Parts(i);
    ReadySizes(i.payload);
    if Answers(i, x) {
      AnswersParts(i, x);
      ReplyHandled(env, i, x);
      ReplyOutcome(i, x);
      if Completes(i, x) {
        CollectedConcluded(env, i, x);
      }
    } else {
      OthersRefused(env, i, x);
    }
  }

  lemma AnswersParts(i: Inst, x: Input)
    requires Answers(i, x)
    ensures i.payload.signing.Some? && i.payload.sig.Some? && Decode(x.m).Some? && IsSign(x.m.event)
    ensures CanSign(x.m.event, i.payload, Decode(x.m).value)
  {
    hide Decode, CanSign, Gate;
  }

  // ---------------------------------------------------------------- the whole batch

  // The reply is kept: it is stored, or completes signatures that are recovered.
  ghost predicate Keeps(env: Env, i: Inst, x: Input) {
    Answers(i, x) && i.payload.dkg.Some? && (Completes(i, x) ==> Recovery(env, i, x).Some?)
  }

  ghost function Next(env: Env, i: Inst, x: Input): Inst {
    match After(env, Some(i), x)
    case Some(n) => n
    case None => i
  }

  ghost function Kept(env: Env, i: Inst, ins: seq<Input>): seq<Threshold.Reply>
    decreases |ins|
  {
    if ins == [] then []
    else (if Keeps(env, i, ins[0]) then [ReplyIn(ins[0])] else []) + Kept(env, Next(env, i, ins[0]), ins[1..])
  }

  // The batch is running before and after each of the messages.
  ghost predicate Unfinished(env: Env, i: Inst, ins: seq<Input>)
    decreases |ins|
  {
    i.state == SigningAwait && (ins == [] || Unfinished(env, Next(env, i, ins[0]), ins[1..]))
  }

  lemma ReplyRuns(env: Env, p0: Payload, h: seq<Threshold.Reply>, i: Inst, x: Input)
    requires p0.sig.Some? && Running(p0, h, i) && BatchState(p0, h, i)
    requires 0 < x.now && Next(env, i, x).state == SigningAwait
    ensures After(env, Some(i), x) == Some(Next(env, i, x))
    ensures var h1 := if Keeps(env, i, x) then h + [ReplyIn(x)] else h;
            Running(p0, h1, Next(env, i, x)) && BatchState(p0, h1, Next(env, i, x))
  {
    hide Step, Running, Inv, Answers, SignOutcome, Closed, Batch, With, Recovery, Signed, Gaveup, Decode, Signs,
         Failures, CanSign, Heard;
    RunningSays(p0, h, i);
    BatchStep(env, i, x);
    if Keeps(env, i, x) {
      AnswersParts(i, x);
      HeardSays(i, ReplyIn(x));
      ReplyStep(p0, h, i, ReplyIn(x));
      AwaitSizes(i);
      ReplyOutcome(i, x);
    }
  }

  lemma AwaitSizes(i: Inst)
    requires Inv(i) && i.state == SigningAwait
    ensures i.payload.sig.Some? && i.payload.threshold <= Size(i.payload)
  {
    hide Inv, SigningReady, SigningOpen;
    Parts(i);
    ReadySizes(i.payload);
  }

  lemma {:induction false} RunKeepsCounts(env: Env, p0: Payload, h: seq<Threshold.Reply>, i: Inst, ins: seq<Input>)
    requires p0.sig.Some? && Running(p0, h, i) && BatchState(p0, h, i) && Clocked(ins) && Unfinished(env, i, ins)
    ensures RoundRun(env, Some(i), ins).Some?
    ensures var e := RoundRun(env, Some(i), ins).value;
            Running(p0, h + Kept(env, i, ins), e) && BatchState(p0, h + Kept(env, i, ins), e)
    decreases |ins|
  {
    hide After, Running, BatchState, Next, ReplyIn, CanSign, Gate, Decode, Completes, Recovery;
    if ins == [] {
      assert h + [] == h;
    } else {
      var x, n := ins[0], Next(env, i, ins[0]);
      NextAwaits(env, n, ins[1..]);
      ReplyRuns(env, p0, h, i, x);
      var h1 := if Keeps(env, i, x) then h + [ReplyIn(x)] else h;
      RunKeepsCounts(env, p0, h1, n, ins[1..]);
      assert h1 + Kept(env, n, ins[1..]) == h + Kept(env, i, ins);
    }
  }

  lemma NextAwaits(env: Env, i: Inst, ins: seq<Input>)
    requires Unfinished(env, i, ins)
    ensures i.state == SigningAwait
  {
  }

  // ---------------------------------------------------------------- from the start of the batch

  // The message starts a batch at an idle round.
  ghost predicate Starts(env: Env, i: Inst, x: Input) {
    && i.state == SigningIdle && x.m.event == SigningStart && Gate(x.skip, i.payload, x.m)
    && Decode(x.m).Some? && CanStart(Decode(x.m).value) && env.tasksExpand(Decode(x.m).value.tasks)
  }

  lemma StartBegins(env: Env, i: Inst, x: Input)
    requires Inv(i) && Starts(env, i, x) && 0 < x.now
    ensures i.payload.sig.Some? && i.payload.signing.Some? && i.payload.dkg.Some? && SigningReady(i.payload)
    ensures After(env, Some(i), x) == Some(Begun(i.payload, Decode(x.m).value))
  {
    hide Step, Inv, Gate, SigningReady, SigningOpen, Started, Asked, Start, Valid;
    Parts(i);
    StepRuns(env, x.skip, i, x.m, x.now);
    StartStays(i.payload, Decode(x.m).value);
    DecodedStart(x.m);
  }

  lemma DecodedStart(m: Message)
    requires m.event == SigningStart && Decode(m).Some? && CanStart(Decode(m).value)
    ensures m.data == Decode(m).value
  {
    hide Valid;
  }

  // What is handed to recovery: the batch's own id and tasks, and exactly t entries in ascending
  // participant order, each with the participant's name and all signatures of its kept reply.
  ghost predicate ProperBatch(data: Data, r: Request, t: int, q: DkgQuorum, h: seq<Threshold.Reply>)
    requires r.SigningStartRequest?
  {
    && data.CollectedSigns? && data.batchId == r.batchId && data.srcPayload == r.tasks
    && |data.signers| == t && Ascending(SignerIds(data.signers))
    && (forall k | 0 <= k < |data.signers| :: IsReplyOf(data.signers[k], h) && NamedIn(data.signers[k], q))
  }

  lemma BatchIsProper(p: Payload, r: Request, h: seq<Threshold.Reply>, j: Inst, x: Input)
    requires p.sig.Some? && p.signing.Some? && p.dkg.Some? && CanStart(r) && Running(Begun(p, r).payload, h, j)
    requires Completes(j, x)
    ensures ProperBatch(Batch(With(j, x).signing.value), r, p.threshold, p.dkg.value.quorum, h + [ReplyIn(x)])
  {
    hide SigningReady, Signs, Failures, Valid, Inv, FromReplies, SignsList, Sorted, S.Processing, S.AddSigns,
         Signed, Gaveup, SigningOpen, Decode, Gate, S.FreshQuorum, SignStored, SameNames, FromReply, CanSign, Batch,
           S.WithStatus,
         SignerKeeps, SignerIds;
    AwaitParts(j);
    BatchOfStored(x.m.event, j.payload, Decode(x.m).value);
    StoredFromReplies(j.payload, h, ReplyIn(x));
    SignCounts(x.m.event, j.payload, Decode(x.m).value);
    SignStoredKeeps(x.m.event, j.payload, Decode(x.m).value);
    BatchList(With(j, x), h + [ReplyIn(x)]);
    NamesOfStart(p, r, j, x.m.event, Decode(x.m).value);
  }

  // The effect of a message on a running batch of which the replies `h` were kept.
  ghost predicate ExactEffect(env: Env, j: Inst, h: seq<Threshold.Reply>, x: Input, out: StepOut)
    requires j.payload.sig.Some?
  {
    var t, n := j.payload.threshold, Size(j.payload);
    && Signs(h) < t && Failures(h) <= n - t && j.payload.dkg.Some?
    && if !Answers(j, x) then out.saved == Some(j) && out.posted.None?
       else if x.m.event == PartialSign && Signs(h) == t - 1 then
         match Recovery(env, j, x)
         case None => out.saved == Some(j) && out.posted.None? && out.err == Some(ReconstructionFailed)
         case Some(sigs) =>
           out.saved == Some(Inst(SigningIdle, Closed(With(j, x)))) && out.posted == Some(sigs) && out.err.None?
       else
         && out.posted.None? && out.err.None?
         && out.saved == Some(Inst(if x.m.event == PartialSignError && Failures(h) == n - t then SigningCanceledByError
                                   else SigningAwait, With(j, x)))
  }

  // A batch at a node, from the message that started it through any messages during which it runs,
  // and one more message. Replies are kept one by one; the t-th signature ends the batch if and only
  // if recovery succeeds on exactly the t kept replies, and is dropped without a trace otherwise;
  // the (N-t+1)-th failure cancels the batch; nothing else ends it.
  lemma ExactAtNode(env: Env, pre: seq<Input>, start: Input, ins: seq<Input>, x: Input)
    requires Clocked(pre) && Clocked(ins) && 0 < start.now && 0 < x.now
    requires RoundRun(env, None, pre).Some? && Starts(env, RoundRun(env, None, pre).value, start)
    requires Unfinished(env, Next(env, RoundRun(env, None, pre).value, start), ins)
    ensures var b := Next(env, RoundRun(env, None, pre).value, start);
            var saved, h := RoundRun(env, RoundRun(env, None, pre), [start] + ins), Kept(env, b, ins);
            && saved.Some? && saved.value.state == SigningAwait && saved.value.payload.sig.Some?
            && ExactEffect(env, saved.value, h, x, Step(env, x.skip, saved, x.m, x.now))
            && (Completes(saved.value, x) ==>
                  && Signs(h) == saved.value.payload.threshold - 1
                  && ProperBatch(Batch(With(saved.value, x).signing.value), Decode(start.m).value,
                                 saved.value.payload.threshold, saved.value.payload.dkg.value.quorum, h + [ReplyIn(x)])
                  && HandedOver(env, saved.value, x, History.FactsOf(env, None, pre + ([start] + ins))))
  {
    hide Step, RoundRun, Inv, SigningReady, Decode, Valid, Running, Kept, Signs, Failures, Answers, With, Recovery,
         Closed, Signed, Gaveup, Begun, ReplyIn, ProperBatch, Batch, History.FactsOf, HandedOver;
    var i := RoundRun(env, None, pre).value;
    RoundRunKeeps(env, None, pre);
    StartBegins(env, i, start);
    var r := Decode(start.m).value;
    var b := Begun(i.payload, r);
    BatchBegins(i.payload, r);
    BegunRuns(i.payload, r);
    RunKeepsCounts(env, b.payload, [], b, ins);
    assert [] + Kept(env, b, ins) == Kept(env, b, ins);
    RunCons(env, i, start, ins);
    var j, h := RoundRun(env, Some(b), ins).value, Kept(env, b, ins);
    RunningSays(b.payload, h, j);
    BegunFrame(i.payload, r);
    BatchStep(env, j, x);
    if Completes(j, x) {
      BatchIsProper(i.payload, r, h, j, x);
      RunDkg(env, i, [start] + ins, j);
      Safety.RunSplits(env, None, pre, [start] + ins);
      RecoveryIsGiven(env, pre + ([start] + ins), x);
    }
  }

  // Recovery gets the polynomial of the last master key that the round accepted, the threshold of its
  // proposal, and the number of the proposal's participants.
  ghost predicate HandedOver(env: Env, i: Inst, x: Input, facts: seq<History.Fact>)
    requires Completes(i, x) && i.payload.dkg.Some?
  {
    && facts != [] && facts[0].event == InitProposal && facts[0].data.ProposalRequest?
    && Recovery(env, i, x)
       == env.reconstruct(History.Poly(facts), Batch(With(i, x).signing.value), facts[0].data.threshold,
                          |facts[0].data.participants|)
  }

  lemma RecoveryIsGiven(env: Env, ins: seq<Input>, x: Input)
    requires Clocked(ins) && RoundRun(env, None, ins).Some? && RoundRun(env, None, ins).value.state == SigningAwait
    requires var i := RoundRun(env, None, ins).value; Completes(i, x) && i.payload.dkg.Some?
    ensures HandedOver(env, RoundRun(env, None, ins).value, x, History.FactsOf(env, None, ins))
  {
    hide RoundRun, History.FactsOf, With, Completes, Batch;
    Provenance.RunRecords(env, ins);
    var i, facts := RoundRun(env, None, ins).value, History.FactsOf(env, None, ins);
    RecordedKeys(i, facts);
  }

  lemma RecordedKeys(i: Inst, facts: seq<History.Fact>)
    requires History.Records(i, facts) && i.state == SigningAwait && i.payload.dkg.Some?
    ensures facts != [] && facts[0].event == InitProposal && facts[0].data.ProposalRequest?
    ensures i.payload.dkg.value.pubPoly == History.Poly(facts) && i.payload.threshold == facts[0].data.threshold
    ensures |i.payload.pubKeys| == |facts[0].data.participants|
  {
    hide History.Replies, History.Errors, History.OfSigning, History.Poly, Range, History.AsAnswered;
    var p, ps := i.payload, facts[0].data.participants;
    forall j, k | 0 <= j < k < |ps|
      ensures ps[j].username != ps[k].username
    {
      assert History.Listed(p, ps[j], j, facts[0].data.threshold)
             && History.Listed(p, ps[k], k, facts[0].data.threshold);
    }
    forall k | 0 <= k < |ps|
      ensures ps[k].username in p.pubKeys
    {
      assert History.Listed(p, ps[k], k, facts[0].data.threshold);
    }
    NamesCount(ps, p.pubKeys.Keys);
    assert |p.pubKeys| == |p.pubKeys.Keys|;
  }

  lemma {:induction false} NamesCount(ps: seq<ParticipantEntry>, names: set<string>)
    requires UniqueUsernames(ps)
    requires forall name :: name in names <==> exists k :: 0 <= k < |ps| && ps[k].username == name
    ensures |names| == |ps|
    decreases |ps|
  {
    if ps == [] {
      assert names == {};
    } else {
      var n := |ps| - 1;
      var rest, last := ps[..n], ps[n].username;
      assert forall k | 0 <= k < n :: rest[k] == ps[k];
      forall name
        ensures name in names - {last} <==> exists k :: 0 <= k < |rest| && rest[k].username == name
      {
      }
      assert last in names by {
        assert ps[n].username == last;
      }
      NamesCount(rest, names - {last});
    }
  }

  // Signing leaves the DKG part alone.
  lemma {:induction false} RunDkg(env: Env, i: Inst, ins: seq<Input>, j: Inst)
    requires Inv(i) && InSigning(i.state) && Clocked(ins) && RoundRun(env, Some(i), ins) == Some(j)
    ensures j.payload.dkg == i.payload.dkg
    decreases |ins|
  {
    hide Inv, After;
    if ins != [] {
      StepDkg(env, i, ins[0]);
      RunDkg(env, After(env, Some(i), ins[0]).value, ins[1..], j);
    }
  }

  lemma StepDkg(env: Env, i: Inst, x: Input)
    requires Inv(i) && InSigning(i.state) && 0 < x.now
    ensures var n := After(env, Some(i), x);
            n.Some? && Inv(n.value) && InSigning(n.value.state) && n.value.payload.dkg == i.payload.dkg
  {
    hide Inv, After, Decode, SigningReady, SigningOpen, StageOpen, SameRoster, Valid;
    AfterKeeps(env, Some(i), x);
    StepChoices(env, i, x);
    Parts(i);
    Parts(Resumed(i));
  }

  lemma RunCons(env: Env, i: Inst, x: Input, ins: seq<Input>)
    ensures RoundRun(env, Some(i), [x] + ins) == RoundRun(env, After(env, Some(i), x), ins)
  {
    hide After;
    assert ([x] + ins)[0] == x && ([x] + ins)[1..] == ins;
  }

  lemma BegunRuns(p: Payload, r: Request)
    requires p.signing.Some? && p.dkg.Some? && r.SigningStartRequest? && Begun(p, r).payload.sig.Some?
    requires BatchState(Begun(p, r).payload, [], Begun(p, r))
    ensures Running(Begun(p, r).payload, [], Begun(p, r))
  {
    hide Running, Started;
  }

  lemma BegunFrame(p: Payload, r: Request)
    requires p.signing.Some? && p.dkg.Some? && r.SigningStartRequest?
    ensures Begun(p, r).payload.threshold == p.threshold && Begun(p, r).payload.sig == p.sig
  {
    hide S.FreshQuorum;
  }

  lemma RunningSays(p0: Payload, h: seq<Threshold.Reply>, i: Inst)
    requires Running(p0, h, i)
    ensures Inv(i) && i.state == SigningAwait && i.payload.sig.Some? && i.payload.signing.Some? && p0.sig.Some?
    ensures Signed(i.payload) == Signs(h) && Gaveup(i.payload) == Failures(h)
    ensures i.payload.threshold == p0.threshold && Size(i.payload) == Size(p0)
  {
    hide Inv, FromReplies, Signed, Gaveup, Signs, Failures;
  }

  // ---------------------------------------------------------------- a stuck batch

  // One signature is missing, and recovery fails whoever adds it.
  ghost predicate Hopeless(env: Env, i: Inst) {
    && i.payload.signing.Some? && i.payload.dkg.Some? && Signed(i.payload) + 1 == i.payload.threshold
    && forall x :: Completes(i, x) ==> Recovery(env, i, x).None?
  }

  // Then no message but a failure report changes the round: the batch neither ends nor expires, not
  // even when everybody has replied.
  lemma {:induction false} StuckBatch(env: Env, i: Inst, ins: seq<Input>)
    requires Inv(i) && i.state == SigningAwait && Hopeless(env, i) && Clocked(ins)
    requires forall k | 0 <= k < |ins| :: ins[k].m.event != PartialSignError
    ensures RoundRun(env, Some(i), ins) == Some(i)
    decreases |ins|
  {
    hide Step, Inv, Recovery, With, Closed, Signed, Gaveup, Gate, Decode, CanSign;
    if ins != [] {
      BatchStep(env, i, ins[0]);
      assert After(env, Some(i), ins[0]) == Some(i);
      StuckBatch(env, i, ins[1..]);
    }
  }

  // Recovery refuses every batch that holds these signatures of a participant.
  ghost predicate Refuses(env: Env, id: int, signs: map<string, Bytes>) {
    forall poly, data: Data, t, n | data.CollectedSigns? && Contains(data.signers, id, signs) ::
      env.reconstruct(poly, data, t, n).None?
  }

  ghost predicate Contains(es: seq<SignsEntry>, id: int, signs: map<string, Bytes>) {
    exists k :: 0 <= k < |es| && es[k].id == id && es[k].signs == signs
  }

  lemma {:induction false} ListContains(ids: seq<int>, q: SigningQuorum, id: int)
    requires Elements(ids) <= q.Keys && id in ids && id in q && q[id].partialSigns != map[]
    ensures Contains(SignsList(ids, q), id, q[id].partialSigns)
    decreases |ids|
  {
    assert ids[0] in Elements(ids) && Elements(ids[1..]) <= Elements(ids);
    var list, tail := SignsList(ids, q), SignsList(ids[1..], q);
    if ids[0] == id {
      assert list[0].id == id;
    } else {
      ListContains(ids[1..], q, id);
      var k :| 0 <= k < |tail| && tail[k].id == id && tail[k].signs == q[id].partialSigns;
      var shift := |list| - |tail|;
      assert list[shift + k] == tail[k];
    }
  }

  // A signature that recovery refuses, stored among the first t-1, makes the batch hopeless.
  lemma BadSignatureSticks(env: Env, i: Inst, bad: int)
    requires Inv(i) && i.state == SigningAwait && i.payload.signing.Some? && bad in i.payload.signing.value.quorum
    requires i.payload.signing.value.quorum[bad].status == SignsConfirmed
    requires Signed(i.payload) + 1 == i.payload.threshold
    requires Refuses(env, bad, i.payload.signing.value.quorum[bad].partialSigns)
    ensures Hopeless(env, i)
  {
    hide Inv, SigningReady, SigningOpen, SignsList, Sorted, Signed, Gate, Decode, Valid, Refuses, Contains,
         S.AddSigns, Recovery;
    AwaitParts(i);
    ReadySizes(i.payload);
    forall x | Completes(i, x)
      ensures Recovery(env, i, x).None?
    {
      BadIsHandedOver(env, i, bad, x);
    }
  }

  lemma BadIsHandedOver(env: Env, i: Inst, bad: int, x: Input)
    requires Completes(i, x) && bad in i.payload.signing.value.quorum && i.payload.dkg.Some?
    requires SignerKeeps(i.payload.signing.value.quorum[bad])
    requires i.payload.signing.value.quorum[bad].status == SignsConfirmed
    requires Refuses(env, bad, i.payload.signing.value.quorum[bad].partialSigns)
    ensures Recovery(env, i, x).None?
  {
    hide SignsList, Sorted, Gate, Decode, Valid, S.AddSigns, Contains, Signed;
    var q := With(i, x).signing.value.quorum;
    var q1 := S.Processing(q);
    assert q1[bad].partialSigns == i.payload.signing.value.quorum[bad].partialSigns;
    assert bad in Elements(Sorted(q.Keys));
    ListContains(Sorted(q.Keys), q1, bad);
  }
}
