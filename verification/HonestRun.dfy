/** A ceremony in which every node posts exactly the result of each operation it is given: in every
    interleaving of reads and posts no message is refused, and the run ends in signing. */
module HonestRun {
  import opened Collections
  import opened Names
  import opened Payloads
  import opened Ceremony
  import opened NodeStep
  import opened Moves
  import opened RoundInvariant
  import opened Preservation
  import opened Steps
  import opened Runs
  import opened Mailbox
  import P = ProposalActions
  import D = DkgActions

  // ---------------------------------------------------------------- what honest nodes post

  // What an operation asks for.
  datatype Duty = Approval | Part(stage: Stage)

  // The ceremony: its first message, the master key the DKG computes, and a time before which no
  // node opens the DKG.
  datatype Plan = Plan(round: string, init: Request, masterKey: Bytes, open: Time)

  ghost predicate PlanOk(plan: Plan) {
    && TrimSpace(plan.round) != "" && plan.init.ProposalRequest? && Valid(plan.init)
    && 0 < plan.init.createdAt && 0 < plan.open && plan.masterKey != []
  }

  ghost function N(plan: Plan): nat
    requires plan.init.ProposalRequest?
  {
    |plan.init.participants|
  }

  ghost function Name(plan: Plan, i: int): string
    requires plan.init.ProposalRequest? && 0 <= i < N(plan)
  {
    plan.init.participants[i].username
  }

  // The result batch of an operation: who posts it, when it was created, and the bytes for each
  // recipient. Everything but deals is broadcast and is the same for all.
  datatype Post = Post(duty: Duty, sender: int, at: Time, contents: seq<Bytes>, pubPoly: Bytes)

  // Approvals are due a week after the proposal, answers a week after the DKG opened.
  function Deadline(plan: Plan, d: Duty): Time
    requires plan.init.ProposalRequest?
  {
    if d == Approval then plan.init.createdAt + PROPOSAL_DEADLINE else plan.open + DKG_DEADLINE
  }

  // The batch has a sender and something for each participant, the same for all unless it deals.
  ghost predicate Formed(plan: Plan, b: Post)
    requires plan.init.ProposalRequest?
  {
    && 0 <= b.sender < N(plan) && |b.contents| == N(plan)
    && (b.duty != Part(Deals) ==> forall i | 0 <= i < N(plan) :: b.contents[i] == b.contents[0])
  }

  // It was created in time and answers, for master keys with the key the DKG computes.
  ghost predicate Proper(plan: Plan, b: Post)
    requires plan.init.ProposalRequest?
  {
    && 0 < b.at <= Deadline(plan, b.duty)
    && (forall bz | bz in b.contents :: bz != [])
    && (b.duty == Part(MasterKeys) ==> forall bz | bz in b.contents :: bz == plan.masterKey)
  }

  ghost predicate PostOk(plan: Plan, b: Post)
    requires plan.init.ProposalRequest?
  {
    Formed(plan, b) && Proper(plan, b)
  }

  ghost function InitMessage(plan: Plan): Message {
    Message("", plan.round, 0, InitProposal, plan.init, {}, "", "")
  }

  // The message of a batch that recipient `i` handles.
  ghost function For(plan: Plan, b: Post, i: int): Message
    requires plan.init.ProposalRequest? && Formed(plan, b) && 0 <= i < N(plan)
  {
    var signed := {plan.init.participants[b.sender].pubKey};
    match b.duty
    case Approval =>
      Message("", plan.round, 0, ConfirmProposal, ReplyRequest(b.sender, b.at), signed, Name(plan, b.sender), "")
    case Part(stage) =>
      Message("", plan.round, 0, DkgConfirm(stage),
              ConfirmationRequest(stage, b.sender, b.contents[i], b.pubPoly, b.at),
              signed, Name(plan, b.sender), if stage == Deals then Name(plan, i) else "")
  }

  // Messages that carry a batch: every participant finds exactly its own among them.
  ghost predicate Carries(plan: Plan, b: Post, sent: seq<Message>)
    requires plan.init.ProposalRequest?
  {
    Formed(plan, b) && forall i | 0 <= i < N(plan) :: Mine(sent, Name(plan, i)) == [For(plan, b, i)]
  }

  // Anything but deals is one broadcast.
  lemma BroadcastCarries(plan: Plan, b: Post)
    requires plan.init.ProposalRequest? && Formed(plan, b) && b.duty != Part(Deals) && 0 < N(plan)
    ensures Carries(plan, b, [For(plan, b, 0)])
  {
    forall i | 0 <= i < N(plan)
      ensures Mine([For(plan, b, 0)], Name(plan, i)) == [For(plan, b, i)]
    {
      OnlyOne([For(plan, b, 0)], Name(plan, i), 0);
    }
  }

  // Deals are addressed, one to each participant, the sender included, in any order.
  lemma DealsCarry(plan: Plan, b: Post, sent: seq<Message>, order: seq<int>)
    requires plan.init.ProposalRequest? && Valid(plan.init) && Formed(plan, b) && b.duty == Part(Deals)
    requires |sent| == |order|
    requires forall k | 0 <= k < |order| :: 0 <= order[k] < N(plan) && sent[k] == For(plan, b, order[k])
    requires (forall j, k | 0 <= j < k < |order| :: order[j] != order[k]) && forall i | 0 <= i < N(plan) :: i in order
    ensures Carries(plan, b, sent)
  {
    forall i | 0 <= i < N(plan)
      ensures Mine(sent, Name(plan, i)) == [For(plan, b, i)]
    {
      assert i in order;
      var k :| 0 <= k < |order| && order[k] == i;
      assert ValidEntry(plan.init.participants[i]);
      forall j | 0 <= j < |sent| && j != k
        ensures !Addressed(sent[j], Name(plan, i))
      {
        assert ValidEntry(plan.init.participants[order[j]]);
      }
      OnlyOne(sent, Name(plan, i), k);
    }
  }

  // ---------------------------------------------------------------- the abstract ceremony

  function Rank(d: Duty): nat {
    match d
    case Approval => 0
    case Part(stage) => 1 + Index(stage)
  }

  function DutyAt(rank: nat): Duty
    requires rank < 5
  {
    if rank == 0 then Approval else if rank == 1 then Part(Commits) else if rank == 2 then Part(Deals)
    else if rank == 3 then Part(Responses) else Part(MasterKeys)
  }

  function StateAt(rank: nat): State
    requires rank <= 5
  {
    if rank == 0 then AwaitParticipants
    else if rank == 5 then SigningIdle
    else DkgAwait(DutyAt(rank).stage)
  }

  // How far a log brings a reader: which duty everybody is on, and who has done it.
  datatype View = View(rank: nat, done: set<int>)

  ghost function Advance(n: nat, v: View, b: Post): View {
    var done := v.done + {b.sender};
    if |done| == n then View(v.rank + 1, {}) else View(v.rank, done)
  }

  ghost function ViewOf(n: nat, log: seq<Post>): View {
    if log == [] then View(0, {}) else Advance(n, ViewOf(n, log[..|log| - 1]), log[|log| - 1])
  }

  // The post is due: it belongs to the current duty and its sender has not done it yet.
  ghost predicate Due(plan: Plan, v: View, b: Post)
    requires plan.init.ProposalRequest?
  {
    PostOk(plan, b) && Rank(b.duty) == v.rank && b.sender !in v.done
  }

  ghost predicate Orderly(plan: Plan, log: seq<Post>)
    requires plan.init.ProposalRequest?
  {
    forall k | 0 <= k < |log| :: Due(plan, ViewOf(N(plan), log[..k]), log[k])
  }

  // ---------------------------------------------------------------- a node's round follows the view

  ghost predicate Keyed(plan: Plan, p: Payload)
    requires plan.init.ProposalRequest?
  {
    && p.sig.Some? && p.sig.value.quorum.Keys == Range(N(plan))
    && forall i | 0 <= i < N(plan) ::
         Name(plan, i) != "" && Name(plan, i) in p.pubKeys
         && p.pubKeys[Name(plan, i)] == plan.init.participants[i].pubKey
  }

  ghost predicate Invited(plan: Plan, p: Payload, done: set<int>)
    requires plan.init.ProposalRequest? && p.sig.Some?
  {
    && Undecided(p) == Range(N(plan)) - done
    && p.sig.value.expiresAt == plan.init.createdAt + PROPOSAL_DEADLINE
    && forall id | id in p.sig.value.quorum && p.sig.value.quorum[id].status == SigAwait ::
         p.sig.value.quorum[id].updatedAt == plan.init.createdAt
  }

  ghost predicate InPart(plan: Plan, p: Payload, stage: Stage, done: set<int>)
    requires plan.init.ProposalRequest?
  {
    && p.dkg.Some? && Waiting(p.dkg.value.quorum, stage) == Range(N(plan)) - done
    && plan.open + DKG_DEADLINE <= p.dkg.value.expiresAt
    && (stage == MasterKeys ==>
          forall id | id in p.dkg.value.quorum && p.dkg.value.quorum[id].status == Confirmed(MasterKeys) ::
            Answer(p.dkg.value.quorum[id], MasterKeys) == plan.masterKey)
  }

  ghost predicate Follows(plan: Plan, i: Inst, v: View)
    requires plan.init.ProposalRequest?
  {
    && v.rank <= 5 && i.state == StateAt(v.rank) && i.payload.sig.Some?
    && (v.rank == 0 ==> Invited(plan, i.payload, v.done))
    && (1 <= v.rank <= 4 ==> InPart(plan, i.payload, DutyAt(v.rank).stage, v.done))
    && Keyed(plan, i.payload) && Inv(i)
  }

  // ---------------------------------------------------------------- reading one message

  lemma LastOne(n: nat, done: set<int>, x: int)
    requires done <= Range(n) && x in Range(n) - done
    ensures |done + {x}| == n <==> Range(n) - done == {x}
    ensures done + {x} <= Range(n) && Range(n) - (done + {x}) == (Range(n) - done) - {x}
  {
    var rest := Range(n) - done;
    assert Range(n) == done + rest && done !! rest;
    assert |Range(n)| == |done| + |rest|;
    assert |done + {x}| == |done| + 1;
    if |rest| == 1 {
      assert rest - {x} == {} by {
        assert |rest - {x}| == 0;
      }
    }
  }

  lemma AdvanceIs(n: nat, v: View, b: Post)
    requires v.done <= Range(n) && b.sender in Range(n) - v.done
    ensures Advance(n, v, b)
            == if Range(n) - v.done == {b.sender} then View(v.rank + 1, {}) else View(v.rank, v.done + {b.sender})
  {
    LastOne(n, v.done, b.sender);
  }

  // The message passes the signature check.
  lemma Trusted(plan: Plan, p: Payload, b: Post, i: int)
    requires plan.init.ProposalRequest? && Keyed(plan, p) && PostOk(plan, b) && 0 <= i < N(plan)
    ensures Gate(false, p, For(plan, b, i)) && Decode(For(plan, b, i)) == Some(For(plan, b, i).data)
  {
  }

  // An accepted ceremony message: no error, and the described dump is saved.
  lemma Accepted(env: Env, i: Inst, m: Message, now: Time)
    requires Inv(i) && Inv(Resumed(i)) && 0 < now && !Cancelled(i.state) && i.state != SigningCanceledByError
    requires Gate(false, i.payload, m) && Decode(m).Some?
    requires Takes(i, m.event, Decode(m).value) && m.event != SigningStart
    requires var res := Result(i, m.event, Decode(m).value, now); res.Moved? && res.state != SigningCollected
    ensures var out := Step(env, false, Some(i), m, now);
            out.err.None? && out.saved == Some(Landed(Result(i, m.event, Decode(m).value, now)))
  {
    hide Step, Inv, Gate, Takes, Result, Decode;
    StepSays(env, false, i, m, now);
  }

  lemma ReadApproval(env: Env, plan: Plan, i: Inst, v: View, b: Post, me: int, now: Time)
    requires PlanOk(plan) && Follows(plan, i, v) && Due(plan, v, b) && 0 <= me < N(plan) && 0 < now
    requires v.rank == 0 && v.done <= Range(N(plan)) && (Advance(N(plan), v, b).rank == 1 ==> plan.open <= now)
    ensures var out := Step(env, false, Some(i), For(plan, b, me), now);
            out.err.None? && out.saved.Some? && Follows(plan, out.saved.value, Advance(N(plan), v, b))
  {
    hide Step, Inv, Respond, Outcome, Roster, Opened, Valid;
    var p, r, n := i.payload, ReplyRequest(b.sender, b.at), N(plan);
    Trusted(plan, p, b, me);
    LastOne(n, v.done, b.sender);
    MayReply(plan, p, v.done, b);
    ResumedKeeps(i);
    RespondSays(p, ConfirmProposal, r);
    TakenReply(p, ConfirmProposal, r, now);
    Accepted(env, i, For(plan, b, me), now);
    ApprovalFollows(plan, p, v.done, b, now);
  }

  lemma MayReply(plan: Plan, p: Payload, done: set<int>, b: Post)
    requires PlanOk(plan) && PostOk(plan, b) && p.sig.Some?
    requires Invited(plan, p, done) && b.sender in Range(N(plan)) - done
    requires b.duty == Approval
    ensures CanReply(p, ReplyRequest(b.sender, b.at))
  {
    assert b.sender in Undecided(p);
  }

  lemma ApprovalFollows(plan: Plan, p: Payload, done: set<int>, b: Post, now: Time)
    requires PlanOk(plan) && PostOk(plan, b) && p.sig.Some? && Keyed(plan, p) && Invited(plan, p, done) && 0 < now
    requires b.duty == Approval && (Advance(N(plan), View(0, done), b).rank == 1 ==> plan.open <= now)
    requires done <= Range(N(plan)) && b.sender in Range(N(plan)) - done && CanReply(p, ReplyRequest(b.sender, b.at))
    ensures var res := Proposed(Outcome(p, ConfirmProposal, ReplyRequest(b.sender, b.at)), now);
            var v := Advance(N(plan), View(0, done), b);
            && res.Moved? && res.state == StateAt(v.rank) && Keyed(plan, res.payload)
            && (v.rank == 0 ==> Invited(plan, res.payload, v.done))
            && (v.rank == 1 ==> InPart(plan, res.payload, Commits, v.done))
  {
    hide Valid, Keyed, Invited, InPart, Formed, Proper, P.WithReply, Undecided, Opened, Advance, Range;
    AdvanceIs(N(plan), View(0, done), b);
    ReplyStored(plan, p, done, b);
    var p1 := P.WithReply(p, b.sender, SigConfirmed, b.at);
    if Range(N(plan)) - done == {b.sender} {
      OpenedIsInPart(plan, p1, now);
      OpenedIsKeyed(plan, p1, now);
    }
  }

  lemma ReplyStored(plan: Plan, p: Payload, done: set<int>, b: Post)
    requires PlanOk(plan) && PostOk(plan, b) && Keyed(plan, p) && Invited(plan, p, done) && b.duty == Approval
    requires done <= Range(N(plan)) && b.sender in Range(N(plan)) - done
    ensures Undecided(p) == Range(N(plan)) - done && b.sender in p.sig.value.quorum
    ensures var p1 := P.WithReply(p, b.sender, SigConfirmed, b.at);
            && p1.sig.Some? && Keyed(plan, p1) && Invited(plan, p1, done + {b.sender}) && !SigExpired(p1.sig.value)
            && p1.sig.value.quorum.Keys == Range(N(plan))
  {
    hide Valid, Name, P.WithReply, ValidEntry;
    ReplyFrame(p, b.sender, b.at);
    LastOne(N(plan), done, b.sender);
  }

  // Storing an approval changes one participant.
  lemma ReplyFrame(p: Payload, pid: int, at: Time)
    requires p.sig.Some? && pid in p.sig.value.quorum
    ensures var p1 := P.WithReply(p, pid, SigConfirmed, at);
            && p1.sig.Some? && p1.pubKeys == p.pubKeys
            && p1.sig.value.quorum.Keys == p.sig.value.quorum.Keys
            && p1.sig.value.expiresAt == p.sig.value.expiresAt && p1.sig.value.updatedAt == at
            && Undecided(p1) == Undecided(p) - {pid}
            && (forall id | id in p.sig.value.quorum && id != pid :: p1.sig.value.quorum[id] == p.sig.value.quorum[id])
            && p1.sig.value.quorum[pid].status == SigConfirmed
  {
    var p1 := P.WithReply(p, pid, SigConfirmed, at);
    assert p1.sig.value.quorum.Keys == p.sig.value.quorum.Keys;
    assert Undecided(p1) == Undecided(p) - {pid};
  }

  lemma OpenedIsKeyed(plan: Plan, p: Payload, now: Time)
    requires plan.init.ProposalRequest? && Keyed(plan, p)
    ensures Keyed(plan, Opened(p, now))
  {
  }

  lemma OpenedIsInPart(plan: Plan, p: Payload, now: Time)
    requires plan.init.ProposalRequest? && p.sig.Some? && p.sig.value.quorum.Keys == Range(N(plan)) && plan.open <= now
    ensures InPart(plan, Opened(p, now), Commits, {})
  {
    var q := D.FromProposal(p.sig.value.quorum);
    assert Waiting(q, Commits) == Range(N(plan));
  }

  // ---------------------------------------------------------------- reading an answer of a stage

  ghost function PartRequest(plan: Plan, stage: Stage, b: Post, me: int): Request
    requires plan.init.ProposalRequest? && PostOk(plan, b) && 0 <= me < N(plan)
  {
    ConfirmationRequest(stage, b.sender, b.contents[me], b.pubPoly, b.at)
  }

  lemma MayConfirm(plan: Plan, p: Payload, stage: Stage, done: set<int>, b: Post, me: int)
    requires PlanOk(plan) && PostOk(plan, b) && InPart(plan, p, stage, done) && b.sender in Range(N(plan)) - done
    requires 0 <= me < N(plan) && b.duty == Part(stage)
    ensures CanConfirm(stage, p, PartRequest(plan, stage, b, me)) && b.at <= p.dkg.value.expiresAt
  {
    assert b.sender in Waiting(p.dkg.value.quorum, stage);
    assert b.contents[me] in b.contents;
  }

  // The quorum after an honest answer: one participant less to wait for, one key for all.
  lemma PartStored(plan: Plan, p: Payload, stage: Stage, done: set<int>, b: Post, me: int)
    requires PlanOk(plan) && PostOk(plan, b) && InPart(plan, p, stage, done) && b.sender in Range(N(plan)) - done
    requires 0 <= me < N(plan) && done <= Range(N(plan)) && b.duty == Part(stage)
    requires CanConfirm(stage, p, PartRequest(plan, stage, b, me)) && Statused(p.dkg.value.quorum, stage)
    ensures var p1 := D.Stored(p, PartRequest(plan, stage, b, me));
            && p1.dkg.Some? && p1.sig == p.sig && p1.pubKeys == p.pubKeys
            && p1.dkg.value.quorum.Keys == p.dkg.value.quorum.Keys
            && InPart(plan, p1, stage, done + {b.sender})
            && (stage == MasterKeys ==> !D.KeysDiffer(p1.dkg.value.quorum))
  {
    hide Valid;
    LastOne(N(plan), done, b.sender);
    var q, r := p.dkg.value.quorum, PartRequest(plan, stage, b, me);
    var d := D.Answered(q[r.pid], stage, r.content, r.createdAt);
    QuorumEffect(q, stage, r.pid, d);
    var q1 := q[r.pid := d];
    assert q1.Keys == q.Keys;
    assert D.Stored(p, r).dkg.value.quorum == q1;
    if stage == MasterKeys {
      assert b.contents[me] in b.contents;
      OneKey(q, q1, r.pid, d, plan.masterKey);
    }
    hide Formed, Proper, Waiting, D.KeysDiffer, Answer, D.Answered;
  }

  lemma OneKey(q: DkgQuorum, q1: DkgQuorum, pid: int, d: DkgParticipant, key: Bytes)
    requires q1 == q[pid := d]
    requires forall id | id in q && q[id].status == Confirmed(MasterKeys) :: Answer(q[id], MasterKeys) == key
    requires Answer(d, MasterKeys) == key
    ensures forall id | id in q1 && q1[id].status == Confirmed(MasterKeys) :: Answer(q1[id], MasterKeys) == key
    ensures !D.KeysDiffer(q1)
  {
  }

  lemma NextPart(plan: Plan, p: Payload, stage: Stage)
    requires plan.init.ProposalRequest? && p.dkg.Some?
    requires p.dkg.value.quorum.Keys == Range(N(plan)) && stage != MasterKeys
    requires plan.open + DKG_DEADLINE <= p.dkg.value.expiresAt
    ensures InPart(plan, D.WithQuorum(p, D.Restatused(p.dkg.value.quorum, D.Following(stage))), NextStage(stage), {})
  {
    var q1 := D.Restatused(p.dkg.value.quorum, D.Following(stage));
    assert Waiting(q1, NextStage(stage)) == Range(N(plan));
  }

  // An answer is due and acceptable.
  ghost predicate PartDue(plan: Plan, p: Payload, stage: Stage, done: set<int>, b: Post, me: int) {
    && PlanOk(plan) && PostOk(plan, b) && p.sig.Some? && p.dkg.Some? && Keyed(plan, p) && InPart(plan, p, stage, done)
    && 0 <= me < N(plan) && done <= Range(N(plan)) && b.sender in Range(N(plan)) - done && b.duty == Part(stage)
    && CanConfirm(stage, p, PartRequest(plan, stage, b, me)) && Statused(p.dkg.value.quorum, stage)
    && p.dkg.value.quorum.Keys == Range(N(plan))
  }

  lemma PartStays(plan: Plan, p: Payload, stage: Stage, done: set<int>, b: Post, me: int)
    requires PartDue(plan, p, stage, done, b, me) && Range(N(plan)) - done != {b.sender}
    ensures var res := ConfirmOutcome(stage, p, PartRequest(plan, stage, b, me));
            res.state == DkgAwait(stage) && Keyed(plan, res.payload)
            && InPart(plan, res.payload, stage, done + {b.sender})
  {
    hide Valid, Formed, Proper, InPart, Keyed, D.Stored, D.KeysDiffer, Waiting, CanConfirm, Statused,
         ConfirmOutcome;
    var r := PartRequest(plan, stage, b, me);
    MayConfirm(plan, p, stage, done, b, me);
    PartStored(plan, p, stage, done, b, me);
    InPartFacts(plan, p, stage, done);
    HonestOutcome(stage, p, r);
    KeyedKept(plan, p, D.Stored(p, r));
  }

  lemma PartEnds(plan: Plan, p: Payload, stage: Stage, done: set<int>, b: Post, me: int)
    requires PartDue(plan, p, stage, done, b, me) && Range(N(plan)) - done == {b.sender}
    ensures var res := ConfirmOutcome(stage, p, PartRequest(plan, stage, b, me));
            && res.state == StageTarget(stage, DkgConfirmedInternal(stage))
            && res.payload.sig == p.sig && res.payload.pubKeys == p.pubKeys
            && (stage != MasterKeys ==> InPart(plan, res.payload, NextStage(stage), {}))
  {
    hide Valid, Formed, Proper, InPart, Keyed, D.Stored, D.Restatused, D.KeysDiffer, D.Collected, Waiting,
         CanConfirm, Statused, ConfirmOutcome, D.WithQuorum;
    var r := PartRequest(plan, stage, b, me);
    MayConfirm(plan, p, stage, done, b, me);
    PartStored(plan, p, stage, done, b, me);
    var p1 := D.Stored(p, r);
    InPartFacts(plan, p, stage, done);
    InPartFacts(plan, p1, stage, done + {b.sender});
    HonestOutcome(stage, p, r);
    QuorumFrame(p1, D.Restatused(p1.dkg.value.quorum, D.Following(stage)));
    if stage != MasterKeys {
      NextPart(plan, p1, stage);
    }
  }

  // A result of the machines that follows the view of a part.
  ghost predicate Rests(plan: Plan, res: DoResult, v: View)
    requires plan.init.ProposalRequest?
  {
    && res.Moved? && 1 <= v.rank <= 5 && res.state == StateAt(v.rank)
    && (v.rank <= 4 ==> InPart(plan, res.payload, DutyAt(v.rank).stage, v.done))
    && Keyed(plan, res.payload)
  }

  lemma PartFollows(plan: Plan, p: Payload, stage: Stage, done: set<int>, b: Post, me: int, now: Time)
    requires plan.init.ProposalRequest? && p.dkg.Some? && PostOk(plan, b) && 0 <= me < N(plan)
    requires CanConfirm(stage, p, PartRequest(plan, stage, b, me))
    requires PartDue(plan, p, stage, done, b, me)
    ensures Rests(plan, Concluded(ConfirmOutcome(stage, p, PartRequest(plan, stage, b, me)), now),
                  Advance(N(plan), View(1 + Index(stage), done), b))
  {
    hide PartDue, Formed, Proper, InPart, Keyed, CanConfirm, ConfirmOutcome, Advance, Range, PartRequest,
         SigningOpened;
    PartDueSays(plan, p, stage, done, b, me);
    AdvanceIs(N(plan), View(1 + Index(stage), done), b);
    var o := ConfirmOutcome(stage, p, PartRequest(plan, stage, b, me));
    if Range(N(plan)) - done == {b.sender} {
      PartEnds(plan, p, stage, done, b, me);
      KeyedKept(plan, p, o.payload);
      OpenedFrame(o.payload, now);
      KeyedKept(plan, p, SigningOpened(o.payload, now));
    } else {
      PartStays(plan, p, stage, done, b, me);
    }
  }

  lemma OpenedFrame(p: Payload, now: Time)
    ensures SigningOpened(p, now).sig == p.sig && SigningOpened(p, now).pubKeys == p.pubKeys
  {
  }

  // An on-time answer that contradicts no key is stored, and ends the stage if it was the last.
  lemma HonestOutcome(stage: Stage, p: Payload, r: Request)
    requires p.dkg.Some? && CanConfirm(stage, p, r) && r.createdAt <= p.dkg.value.expiresAt
    requires stage == MasterKeys ==> !D.KeysDiffer(D.Stored(p, r).dkg.value.quorum)
    ensures var p1 := D.Stored(p, r);
            && p1.dkg.Some?
            && ConfirmOutcome(stage, p, r)
               == if Waiting(p.dkg.value.quorum, stage) != {r.pid} then Moved(DkgAwait(stage), p1, NoData)
                  else Moved(StageTarget(stage, DkgConfirmedInternal(stage)),
                             D.WithQuorum(p1, D.Restatused(p1.dkg.value.quorum, D.Following(stage))),
                             D.Collected(stage, p1.dkg.value.quorum))
  {
    hide Valid, Waiting, D.KeysDiffer, D.Mismatched, D.Restatused, D.Collected, D.WithQuorum;
  }

  lemma QuorumFrame(p: Payload, q: DkgQuorum)
    requires p.dkg.Some?
    ensures D.WithQuorum(p, q).sig == p.sig && D.WithQuorum(p, q).pubKeys == p.pubKeys
  {
  }

  lemma InPartFacts(plan: Plan, p: Payload, stage: Stage, done: set<int>)
    requires plan.init.ProposalRequest? && InPart(plan, p, stage, done)
    ensures p.dkg.Some? && Waiting(p.dkg.value.quorum, stage) == Range(N(plan)) - done
    ensures plan.open + DKG_DEADLINE <= p.dkg.value.expiresAt
  {
  }

  lemma KeyedKept(plan: Plan, p: Payload, p1: Payload)
    requires plan.init.ProposalRequest? && Keyed(plan, p)
    ensures p1.sig == p.sig && p1.pubKeys == p.pubKeys ==> Keyed(plan, p1)
  {
  }

  lemma ReadPart(env: Env, plan: Plan, i: Inst, v: View, b: Post, me: int, now: Time)
    requires PlanOk(plan) && Follows(plan, i, v) && Due(plan, v, b) && 0 <= me < N(plan) && 0 < now
    requires 1 <= v.rank <= 4 && v.done <= Range(N(plan))
    ensures var out := Step(env, false, Some(i), For(plan, b, me), now);
            out.err.None? && out.saved.Some? && Follows(plan, out.saved.value, Advance(N(plan), v, b))
  {
    hide Step, Inv, Follows, Due, PlanOk, Formed, Proper, CanConfirm, PartDue, Rests, Concluded, ConfirmOutcome,
         Advance, Range, For, PartRequest, StateAt, Gate, Decode;
    PlanParts(plan);
    DueParts(plan, v, b);
    FollowsPart(plan, i, v);
    var stage := DutyAt(v.rank).stage;
    PartRequestIs(plan, stage, b, me);
    PartReady(plan, i, v, b, me);
    PartFollows(plan, i.payload, stage, v.done, b, me, now);
    PartStep(env, plan, i, stage, b, me, now);
    RestsFollows(plan, Concluded(ConfirmOutcome(stage, i.payload, PartRequest(plan, stage, b, me)), now),
      Advance(N(plan), v, b));
  }

  lemma DueParts(plan: Plan, v: View, b: Post)
    requires plan.init.ProposalRequest? && Due(plan, v, b) && 1 <= v.rank <= 4
    ensures PostOk(plan, b) && b.duty == DutyAt(v.rank) && b.duty.Part? && b.sender !in v.done
    ensures View(1 + Index(DutyAt(v.rank).stage), v.done) == v
  {
    hide Formed, Proper;
  }

  lemma FollowsPart(plan: Plan, i: Inst, v: View)
    requires plan.init.ProposalRequest? && Follows(plan, i, v) && 1 <= v.rank <= 4
    ensures Inv(i) && i.state == DkgAwait(DutyAt(v.rank).stage) && Keyed(plan, i.payload)
    ensures i.payload.sig.Some? && i.payload.dkg.Some? && InPart(plan, i.payload, DutyAt(v.rank).stage, v.done)
  {
    hide Inv, Keyed;
  }

  lemma PartRequestIs(plan: Plan, stage: Stage, b: Post, me: int)
    requires plan.init.ProposalRequest? && PostOk(plan, b) && 0 <= me < N(plan) && b.duty == Part(stage)
    ensures For(plan, b, me).event == DkgConfirm(stage) && For(plan, b, me).data == PartRequest(plan, stage, b, me)
  {
    hide Formed, Proper;
  }

  // The part is due at a node that follows the view.
  lemma PartReady(plan: Plan, i: Inst, v: View, b: Post, me: int)
    requires PlanOk(plan) && 1 <= v.rank <= 4 && PostOk(plan, b) && b.duty == DutyAt(v.rank) && b.duty.Part?
    requires b.sender !in v.done && 0 <= me < N(plan) && v.done <= Range(N(plan)) && Follows(plan, i, v)
    ensures i.payload.dkg.Some?
    ensures CanConfirm(DutyAt(v.rank).stage, i.payload, PartRequest(plan, DutyAt(v.rank).stage, b, me))
    ensures PartDue(plan, i.payload, DutyAt(v.rank).stage, v.done, b, me)
  {
    hide Inv, Follows, PlanOk, Formed, Proper, CanConfirm, PartDue, InPart, Keyed, SameRoster, StageOpen, Statused,
         Range, PartRequest;
    var p, stage := i.payload, DutyAt(v.rank).stage;
    PlanParts(plan);
    FollowsPart(plan, i, v);
    Parts(i);
    SenderWaits(plan, v.done, b);
    InPartFacts(plan, p, stage, v.done);
    MayConfirm(plan, p, stage, v.done, b, me);
    OpenIsStatused(p, stage);
    KeyedRoster(plan, p);
    PartIsDue(plan, p, stage, v.done, b, me);
  }

  lemma PlanParts(plan: Plan)
    requires PlanOk(plan)
    ensures plan.init.ProposalRequest? && 0 < plan.open && 0 < plan.init.createdAt
  {
  }

  // The node takes the part.
  lemma PartStep(env: Env, plan: Plan, i: Inst, stage: Stage, b: Post, me: int, now: Time)
    requires plan.init.ProposalRequest? && PostOk(plan, b) && 0 <= me < N(plan) && b.duty == Part(stage) && 0 < now
    requires Inv(i) && i.state == DkgAwait(stage) && i.payload.dkg.Some? && Keyed(plan, i.payload)
    requires CanConfirm(stage, i.payload, PartRequest(plan, stage, b, me))
    ensures var out := Step(env, false, Some(i), For(plan, b, me), now);
            var res := Concluded(ConfirmOutcome(stage, i.payload, PartRequest(plan, stage, b, me)), now);
            && out.err.None? && out.saved.Some? && res.Moved?
            && out.saved.value == Inst(res.state, res.payload) && Inv(out.saved.value)
  {
    hide Step, Inv, Keyed, CanConfirm, Formed, Proper, PartRequest, For, Gate, Decode, Takes, Result, Concluded,
         ConfirmOutcome, SameRoster, StageOpen, Resumed, Fatal;
    var r, m := PartRequest(plan, stage, b, me), For(plan, b, me);
    PartRequestIs(plan, stage, b, me);
    Trusted(plan, i.payload, b, me);
    Parts(i);
    ResumedKeeps(i);
    TakenConfirm(stage, i.payload, r, now);
    PartTaken(i, stage, r, now);
    NotCollected(stage, i.payload, r, now);
    Accepted(env, i, m, now);
  }

  lemma NotCollected(stage: Stage, p: Payload, r: Request, now: Time)
    requires p.dkg.Some? && CanConfirm(stage, p, r)
    ensures Concluded(ConfirmOutcome(stage, p, r), now).Moved?
    ensures Concluded(ConfirmOutcome(stage, p, r), now).state != SigningCollected
  {
    hide ConfirmOutcome, CanConfirm;
  }

  lemma RestsFollows(plan: Plan, res: DoResult, v: View)
    requires plan.init.ProposalRequest? && Rests(plan, res, v) && Inv(Inst(res.state, res.payload))
    ensures Follows(plan, Inst(res.state, res.payload), v)
  {
    hide Inv, InPart;
  }

  lemma PartDueSays(plan: Plan, p: Payload, stage: Stage, done: set<int>, b: Post, me: int)
    requires plan.init.ProposalRequest? && PartDue(plan, p, stage, done, b, me)
    ensures Keyed(plan, p) && done <= Range(N(plan)) && b.sender in Range(N(plan)) - done
  {
    hide PlanOk, Formed, Proper, Keyed, InPart, CanConfirm, Statused, Range;
  }

  lemma PartIsDue(plan: Plan, p: Payload, stage: Stage, done: set<int>, b: Post, me: int)
    requires PlanOk(plan) && PostOk(plan, b) && p.sig.Some? && p.dkg.Some?
    requires Keyed(plan, p) && InPart(plan, p, stage, done)
    requires 0 <= me < N(plan) && done <= Range(N(plan)) && b.sender in Range(N(plan)) - done && b.duty == Part(stage)
    requires CanConfirm(stage, p, PartRequest(plan, stage, b, me)) && Statused(p.dkg.value.quorum, stage)
    requires p.dkg.value.quorum.Keys == Range(N(plan))
    ensures PartDue(plan, p, stage, done, b, me)
  {
    hide PlanOk, Formed, Proper, Keyed, InPart, CanConfirm, Statused, Range;
  }

  lemma PartTaken(i: Inst, stage: Stage, r: Request, now: Time)
    requires Inv(i) && i.state == DkgAwait(stage) && i.payload.dkg.Some? && CanConfirm(stage, i.payload, r)
    ensures Takes(i, DkgConfirm(stage), r)
    ensures Result(i, DkgConfirm(stage), r, now) == Concluded(ConfirmOutcome(stage, i.payload, r), now)
  {
    hide Inv, CanConfirm, ConfirmOutcome, Concluded;
  }

  lemma SenderWaits(plan: Plan, done: set<int>, b: Post)
    requires plan.init.ProposalRequest? && PostOk(plan, b) && b.sender !in done
    ensures b.sender in Range(N(plan)) - done
  {
  }

  lemma KeyedRoster(plan: Plan, p: Payload)
    requires plan.init.ProposalRequest? && Keyed(plan, p) && p.dkg.Some? && SameRoster(p)
    ensures p.dkg.value.quorum.Keys == Range(N(plan))
  {
  }

  // ---------------------------------------------------------------- reading the first message

  lemma {:induction false} KeyMapFinds(keys: map<string, Bytes>, ps: seq<ParticipantEntry>, n: nat, i: nat)
    requires i < n <= |ps| && UniqueUsernames(ps)
    ensures ps[i].username in P.KeyMap(keys, ps, n) && P.KeyMap(keys, ps, n)[ps[i].username] == ps[i].pubKey
  {
    if i < n - 1 {
      KeyMapFinds(keys, ps, n - 1, i);
      assert ps[i].username != ps[n - 1].username;
    }
  }

  lemma KeysFound(keys: map<string, Bytes>, r: Request)
    requires r.ProposalRequest? && Valid(r)
    ensures var ps, all := r.participants, P.KeyMap(keys, r.participants, |r.participants|);
            forall i | 0 <= i < |ps| ::
              ps[i].username != "" && ps[i].username in all && all[ps[i].username] == ps[i].pubKey
  {
    var ps := r.participants;
    forall i | 0 <= i < |ps|
      ensures ps[i].username != ""
      ensures ps[i].username in P.KeyMap(keys, ps, |ps|) && P.KeyMap(keys, ps, |ps|)[ps[i].username] == ps[i].pubKey
    {
      KeyMapFinds(keys, ps, |ps|, i);
      assert ValidEntry(ps[i]);
    }
  }

  // What the first message leaves in the payload.
  lemma InitLeaves(p: Payload, r: Request)
    requires r.ProposalRequest? && Valid(r)
    ensures var res := P.Init(p, r);
            && res.Reply? && res.payload.sig.Some?
            && res.payload.pubKeys == P.KeyMap(p.pubKeys, r.participants, |r.participants|)
            && res.payload.sig.value
               == SigConfirmation(P.NewQuorum(r.participants, r.threshold, r.createdAt),
                                  r.createdAt, 0, r.createdAt + PROPOSAL_DEADLINE)
  {
    hide Valid, InvitationList, Sorted, P.IdMap, P.KeyMap, P.NewQuorum;
  }

  lemma NewQuorumWaits(ps: seq<ParticipantEntry>, threshold: int, at: Time)
    ensures forall i | i in P.NewQuorum(ps, threshold, at) ::
              P.NewQuorum(ps, threshold, at)[i].status == SigAwait && P.NewQuorum(ps, threshold, at)[i].updatedAt == at
  {
    hide Range;
  }

  lemma FreshKeyed(plan: Plan, p: Payload)
    requires PlanOk(plan)
    ensures var res := P.Init(p, plan.init);
            res.Reply? && Keyed(plan, res.payload) && Invited(plan, res.payload, {})
            && !SigExpired(res.payload.sig.value)
  {
    hide Valid, P.Init, P.KeyMap, P.NewQuorum, Undecided, Range;
    var r := plan.init;
    KeysFound(p.pubKeys, r);
    InitLeaves(p, r);
    NewQuorumWaits(r.participants, r.threshold, r.createdAt);
    FreshUndecided(P.Init(p, r).payload, |r.participants|);
  }

  lemma FreshUndecided(p: Payload, n: nat)
    requires p.sig.Some? && p.sig.value.quorum.Keys == Range(n)
    requires forall i | i in p.sig.value.quorum :: p.sig.value.quorum[i].status == SigAwait
    ensures Undecided(p) == Range(n) - {}
  {
  }

  lemma ReadInit(env: Env, plan: Plan, now: Time)
    requires PlanOk(plan) && 0 < now
    ensures var out := Step(env, false, None, InitMessage(plan), now);
            out.err.None? && out.saved.Some? && Follows(plan, out.saved.value, View(0, {}))
  {
    hide Step, Inv, Valid, P.Init, Settle, Keyed, Invited, TrimSpace, Roster;
    StepCreates(env, false, InitMessage(plan), now);
    var i := Inst(GlobalIdle, EmptyPayload(TrimSpace(plan.round)));
    IdleInv(TrimSpace(plan.round));
    TakenProposal(i.payload, plan.init, now);
    FreshKeyed(plan, i.payload);
    FreshSettles(i.payload, plan.init);
    Accepted(env, i, InitMessage(plan), now);
  }

  lemma FreshSettles(p: Payload, r: Request)
    requires p.dkg.None? && p.signing.None? && r.ProposalRequest? && Valid(r)
    ensures var res := P.Init(p, r);
            res.Reply? && res.payload.sig.Some?
            && (!SigExpired(res.payload.sig.value) ==>
                  Propose(p, r) == Moved(AwaitParticipants, res.payload, res.data))
  {
    hide InvitationList, Sorted, P.IdMap, P.KeyMap, Settle, Roster;
    FreshRoster(p, r);
    SettleFresh(P.Init(p, r).payload, P.Init(p, r).data);
  }

  // ---------------------------------------------------------------- the view of an orderly log

  ghost predicate Posted(log: seq<Post>, d: Duty, i: int) {
    exists k :: 0 <= k < |log| && log[k].duty == d && log[k].sender == i
  }

  // Everything before the current duty is posted by all, nothing after it by anybody.
  ghost predicate ViewExact(plan: Plan, log: seq<Post>, v: View)
    requires plan.init.ProposalRequest?
  {
    && v.rank <= 5 && v.done < Range(N(plan))
    && (v.rank == 5 ==> v.done == {})
    && forall d: Duty, i: int | 0 <= i < N(plan) ::
         Posted(log, d, i) <==> Rank(d) < v.rank || (Rank(d) == v.rank && i in v.done)
  }

  lemma PostedGrows(log: seq<Post>, b: Post, d: Duty, i: int)
    ensures Posted(log + [b], d, i) <==> Posted(log, d, i) || (b.duty == d && b.sender == i)
  {
    var l1 := log + [b];
    if Posted(log, d, i) {
      var k :| 0 <= k < |log| && log[k].duty == d && log[k].sender == i;
      assert l1[k] == log[k];
    }
    if b.duty == d && b.sender == i {
      assert l1[|log|] == b;
    }
    if Posted(l1, d, i) {
      var k :| 0 <= k < |l1| && l1[k].duty == d && l1[k].sender == i;
      assert k < |log| ==> l1[k] == log[k];
    }
  }

  lemma OrderlyPrefix(plan: Plan, log: seq<Post>, k: nat)
    requires plan.init.ProposalRequest? && Orderly(plan, log) && k <= |log|
    ensures Orderly(plan, log[..k])
  {
    forall j | 0 <= j < k
      ensures Due(plan, ViewOf(N(plan), log[..k][..j]), log[..k][j])
    {
      assert log[..k][..j] == log[..j];
    }
  }

  lemma {:induction false} ViewIsExact(plan: Plan, log: seq<Post>)
    requires PlanOk(plan) && Orderly(plan, log)
    ensures ViewExact(plan, log, ViewOf(N(plan), log))
    decreases |log|
  {
    hide PlanOk, Posted, Due, ViewExact, Advance, Orderly;
    PlanParts(plan);
    if log == [] {
      EmptyExact(plan);
    } else {
      var before, b := log[..|log| - 1], log[|log| - 1];
      OrderlyPrefix(plan, log, |log| - 1);
      ViewIsExact(plan, before);
      assert log == before + [b];
      LastDue(plan, log);
      ExactStep(plan, before, ViewOf(N(plan), before), b);
    }
  }

  lemma LastDue(plan: Plan, log: seq<Post>)
    requires plan.init.ProposalRequest? && Orderly(plan, log) && log != []
    ensures Due(plan, ViewOf(N(plan), log[..|log| - 1]), log[|log| - 1])
  {
    hide Due, ViewOf;
  }

  lemma EmptyExact(plan: Plan)
    requires PlanOk(plan)
    ensures ViewExact(plan, [], View(0, {}))
  {
    hide Posted;
    EmptyLog();
    assert 0 in Range(N(plan));
  }

  lemma ExactStep(plan: Plan, log: seq<Post>, v: View, b: Post)
    requires PlanOk(plan) && ViewExact(plan, log, v) && Due(plan, v, b)
    ensures ViewExact(plan, log + [b], Advance(N(plan), v, b))
  {
    hide Valid, Posted, Formed, Proper, Advance, Range;
    SenderWaits(plan, v.done, b);
    AdvanceIs(N(plan), v, b);
    AdvanceExact(plan, v, b);
    var w := Advance(N(plan), v, b);
    forall d: Duty, i: int | 0 <= i < N(plan)
      ensures Posted(log + [b], d, i) <==> Rank(d) < w.rank || (Rank(d) == w.rank && i in w.done)
    {
      PostedGrows(log, b, d, i);
      SameRank(d, b.duty);
    }
  }

  lemma EmptyLog()
    ensures forall d: Duty, i: int :: !Posted([], d, i)
  {
  }

  lemma SameRank(d: Duty, d': Duty)
    ensures Rank(d) == Rank(d') <==> d == d'
  {
  }

  // Doing a due duty makes the view advance by exactly that.
  lemma AdvanceExact(plan: Plan, v: View, b: Post)
    requires PlanOk(plan) && Due(plan, v, b) && v.done < Range(N(plan)) && v.rank <= 5
    ensures var w := if Range(N(plan)) - v.done == {b.sender} then View(v.rank + 1, {})
                     else View(v.rank, v.done + {b.sender});
            && w.rank <= 5 && w.done < Range(N(plan)) && (w.rank == 5 ==> w.done == {})
            && forall i: int | 0 <= i < N(plan) ::
                 (i in v.done || i == b.sender) <==> (v.rank < w.rank || i in w.done)
  {
    assert 0 in Range(N(plan));
    forall i: int | 0 <= i < N(plan)
      ensures i in v.done || i in Range(N(plan)) - v.done
    {
    }
    if Range(N(plan)) - v.done != {b.sender} {
      var j := Another(Range(N(plan)) - v.done, b.sender);
    }
  }
}
