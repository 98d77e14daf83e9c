/** A node step on a reachable round, by the state the round is in. */
module Reactions {
  import opened Names
  import opened Payloads
  import opened Ceremony
  import opened NodeStep
  import opened Moves

  // The proposal machine hands over to the DKG machine in the same step.
  ghost function ThenOpen(r: DoResult, now: Time): DoResult {
    if r.Moved? && r.state == ProposalCollected then Open(r.payload, DefaultRequest(now)) else r
  }

  // The DKG machine hands over to the signing machine in the same step.
  ghost function ThenOpenSigning(r: DoResult, now: Time): DoResult {
    if r.Moved? && r.state == MasterKeyCollected then OpenSigning(r.payload, DefaultRequest(now)) else r
  }

  // The event is handled in this state; what the machines make of it.
  ghost function Handle(i: Inst, m: Message, now: Time): DoResult {
    match Decode(m)
    case None => Rejected(InvalidEvent)
    case Some(r) =>
      match i.state
      case GlobalIdle =>
        if m.event == InitProposal then ThenOpen(Propose(i.payload, r), now) else Rejected(NoRoute)
      case AwaitParticipants =>
        if IsReply(m.event) then ThenOpen(Respond(m.event, i.payload, r), now) else Rejected(NoRoute)
      case DkgAwait(stage) =>
        if m.event == DkgConfirm(stage) then ThenOpenSigning(Confirm(stage, i.payload, r), now)
        else if m.event == DkgError(stage) then Fail(stage, i.payload, r)
        else Rejected(NoRoute)
      case SigningIdle => if m.event == SigningStart then Start(i.payload, r) else Rejected(NoRoute)
      case SigningAwait => if IsSign(m.event) then Sign(m.event, i.payload, r) else Rejected(NoRoute)
      case _ => Rejected(NoRoute)
  }

  // The states in which a round takes events.
  predicate Live(s: State) {
    s.GlobalIdle? || s.AwaitParticipants? || s.DkgAwait? || s.SigningIdle? || s.SigningAwait?
  }

  lemma NoRowElsewhere(s: State, p: Payload, m: Message, r: Request)
    requires Live(s) && Decode(m) == Some(r)
    requires s == GlobalIdle ==> m.event != InitProposal
    requires s == AwaitParticipants ==> !IsReply(m.event)
    requires s.DkgAwait? ==> m.event != DkgConfirm(s.stage) && m.event != DkgError(s.stage)
    requires s == SigningIdle ==> m.event != SigningStart
    requires s == SigningAwait ==> !IsSign(m.event)
    ensures Do(s, p, m.event, r) == Rejected(NoRoute)
  {
    hide Execute;
  }

  lemma AfterProposal(res: DoResult, now: Time)
    requires res.Moved? ==> res.state != MasterKeyCollected
    ensures (match res case Rejected(err) => Rejected(err)
                       case Moved(s, p, d) => HandOver(s, p, d, now)) == ThenOpen(res, now)
  {
    if res.Moved? {
      DoOpen(res.payload, DefaultRequest(now));
    }
    hide Do, Open, OpenSigning;
  }

  lemma AfterDkg(res: DoResult, now: Time)
    requires res.Moved? ==> res.state != ProposalCollected
    ensures (match res case Rejected(err) => Rejected(err)
                       case Moved(s, p, d) => HandOver(s, p, d, now)) == ThenOpenSigning(res, now)
  {
    if res.Moved? {
      DoOpenSigning(res.payload, DefaultRequest(now));
    }
    hide Do, Open, OpenSigning;
  }

  ghost function Machines(i: Inst, m: Message, now: Time): DoResult {
    match Decode(m)
    case None => Rejected(InvalidEvent)
    case Some(r) =>
      match Do(i.state, i.payload, m.event, r)
      case Rejected(err) => Rejected(err)
      case Moved(s, p, data) => HandOver(s, p, data, now)
  }

  lemma HandleIs(i: Inst, m: Message, now: Time)
    requires Live(i.state)
    ensures Machines(i, m, now) == Handle(i, m, now)
  {
    hide Do, HandOver, Propose, Respond, Confirm, Fail, Start, Sign, Open, OpenSigning;
    if Decode(m).Some? {
      var s, p, r := i.state, i.payload, Decode(m).value;
      if s == GlobalIdle && m.event == InitProposal {
        DoPropose(p, r);
        AfterProposal(Propose(p, r), now);
      } else if s == AwaitParticipants && IsReply(m.event) {
        DoRespond(p, m.event, r);
        AfterProposal(Respond(m.event, p, r), now);
      } else if s.DkgAwait? && m.event == DkgConfirm(s.stage) {
        DoConfirm(s.stage, p, r);
        AfterDkg(Confirm(s.stage, p, r), now);
      } else if s.DkgAwait? && m.event == DkgError(s.stage) {
        DoFail(s.stage, p, r);
        AfterDkg(Fail(s.stage, p, r), now);
      } else if s == SigningIdle && m.event == SigningStart {
        DoStart(p, r);
        AfterDkg(Start(p, r), now);
      } else if s == SigningAwait && IsSign(m.event) {
        DoSign(p, m.event, r);
        AfterDkg(Sign(m.event, p, r), now);
      } else {
        NoRowElsewhere(s, p, m, r);
      }
    }
  }
}
