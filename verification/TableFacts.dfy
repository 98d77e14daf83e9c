/** The three tables together are the union table, and each state leaves through one machine only. */
module TableFacts {
  import opened Collections
  import opened Names
  import opened Ceremony
  import opened NodeStep
  import opened Tables

  // The machine whose table leaves a state.
  function Owner(s: State): Option<MachineId> {
    match s
    case GlobalIdle | AwaitParticipants => Some(ProposalMachine)
    case ProposalCollected | DkgAwait(_) | DkgCanceledByError(_) => Some(DkgMachine)
    case MasterKeyCollected | SigningIdle | SigningAwait | SigningCollected => Some(SigningMachine)
    case SigningCanceledByTimeout | SigningCanceledByError => Some(SigningMachine)
    case _ => None
  }

  predicate IsAutomatic(e: Event) {
    e == ValidateProposal || e.DkgValidate? || e == SigningValidate
  }

  // The edge the union table has for a state and an event.
  function UnionEdge(s: State, e: Event): Option<Edge> {
    match Row(s, e)
    case None => None
    case Some(row) =>
      Some(Edge(e, row.dst, row.isInternal, IsAutomatic(e), if IsAutomatic(e) then RunAfter else RunDefault))
  }

  lemma DeclaresConcat(a: seq<EventDesc>, b: seq<EventDesc>, s: State, e: Event, edge: Edge)
    ensures Declares(a + b, s, e, edge) <==> Declares(a, s, e, edge) || Declares(b, s, e, edge)
  {
    hide Leads;
  }

  lemma DeclaresOne(d: EventDesc, s: State, e: Event, edge: Edge)
    ensures Declares([d], s, e, edge) <==> Leads(d, s, e, edge)
  {
    hide Leads;
  }

  lemma OneSource(d: EventDesc, src: State, s: State)
    requires d.src == [src]
    ensures HasSource(d, s) <==> s == src && s != NoState
  {
  }

  // The edge from `src` by `name`.
  predicate Is(s: State, e: Event, edge: Edge, name: Event, src: State, dst: State, isInternal: bool, isAuto: bool) {
    e == name && s == src && edge == Edge(name, dst, isInternal, isAuto, if isAuto then RunAfter else RunDefault)
  }

  lemma PlainLeads(name: Event, src: State, dst: State, s: State, e: Event, edge: Edge)
    requires src != NoState
    ensures Leads(Plain(name, src, dst), s, e, edge) <==> Is(s, e, edge, name, src, dst, false, false)
  {
    assert EdgeOf(Plain(name, src, dst)) == Edge(name, dst, false, false, RunDefault);
    OneSource(Plain(name, src, dst), src, s);
    hide Plain, EdgeOf, HasSource;
  }

  lemma InternalLeads(name: Event, src: State, dst: State, s: State, e: Event, edge: Edge)
    requires src != NoState
    ensures Leads(Internal(name, src, dst), s, e, edge) <==> Is(s, e, edge, name, src, dst, true, false)
  {
    assert EdgeOf(Internal(name, src, dst)) == Edge(name, dst, true, false, RunDefault);
    OneSource(Internal(name, src, dst), src, s);
    hide Internal, EdgeOf, HasSource;
  }

  lemma AutoLeads(name: Event, src: State, s: State, e: Event, edge: Edge)
    requires src != NoState
    ensures Leads(Auto(name, src), s, e, edge) <==> Is(s, e, edge, name, src, src, true, true)
  {
    assert EdgeOf(Auto(name, src)) == Edge(name, src, true, true, RunAfter);
    OneSource(Auto(name, src), src, s);
    hide Auto, EdgeOf, HasSource;
  }

  // The union table leaves only `src` by `name`.
  predicate OneEdge(s: State, name: Event, src: State, dst: State, isInternal: bool) {
    UnionEdge(s, name) ==
    if s == src then
      Some(Edge(name, dst, isInternal, IsAutomatic(name), if IsAutomatic(name) then RunAfter else RunDefault))
    else None
  }

  // An event with one source has one edge in the union table.
  lemma UnionIs(s: State, e: Event, edge: Edge, name: Event, src: State, dst: State, isInternal: bool)
    requires OneEdge(s, name, src, dst, isInternal)
    ensures e == name && UnionEdge(s, e) == Some(edge) <==>
              Is(s, e, edge, name, src, dst, isInternal, IsAutomatic(name))
  {
    hide UnionEdge, IsAutomatic;
  }

  // ---------------------------------------------------------------- one stage of the DKG table

  predicate IsStageEvent(stage: Stage, e: Event) {
    e == DkgConfirm(stage) || e == DkgError(stage) || e == DkgTimeoutInternal(stage)
    || e == DkgValidate(stage) || e == DkgConfirmedInternal(stage)
  }

  lemma StageRowsDeclare(stage: Stage, s: State, e: Event, edge: Edge)
    ensures Declares(StageRows(stage), s, e, edge) <==>
            var here := DkgAwait(stage);
            || Leads(Plain(DkgConfirm(stage), here, here), s, e, edge)
            || Leads(ErrorRow(stage), s, e, edge)
            || Leads(Internal(DkgTimeoutInternal(stage), here, DkgCanceledByTimeout(stage)), s, e, edge)
            || Leads(Auto(DkgValidate(stage), here), s, e, edge)
            || Leads(Internal(DkgConfirmedInternal(stage), here, After(stage)), s, e, edge)
  {
    hide Leads, Plain, Internal, Auto;
  }

  lemma ErrorLeads(stage: Stage, s: State, e: Event, edge: Edge)
    ensures Leads(ErrorRow(stage), s, e, edge) <==> e == DkgError(stage) && UnionEdge(s, e) == Some(edge)
  {
    assert EdgeOf(ErrorRow(stage)) == Edge(DkgError(stage), DkgCanceledByError(stage), false, false, RunDefault);
    assert HasSource(ErrorRow(stage), s) <==> s == DkgAwait(stage) || s == DkgCanceledByError(stage);
    assert ErrorRow(stage).name == DkgError(stage);
    hide EdgeOf, HasSource, ErrorRow, UnionEdge;
    ErrorEdges(stage, s);
  }

  lemma ErrorEdges(stage: Stage, s: State)
    ensures UnionEdge(s, DkgError(stage)) ==
            if s == DkgAwait(stage) || s == DkgCanceledByError(stage)
            then Some(Edge(DkgError(stage), DkgCanceledByError(stage), false, false, RunDefault)) else None
  {
  }

  lemma StageEdges(stage: Stage, s: State)
    ensures OneEdge(s, DkgConfirm(stage), DkgAwait(stage), DkgAwait(stage), false)
    ensures OneEdge(s, DkgTimeoutInternal(stage), DkgAwait(stage), DkgCanceledByTimeout(stage), true)
  {
  }

  lemma StageAutoEdges(stage: Stage, s: State)
    ensures OneEdge(s, DkgValidate(stage), DkgAwait(stage), DkgAwait(stage), true)
    ensures OneEdge(s, DkgConfirmedInternal(stage), DkgAwait(stage), After(stage), true)
  {
  }

  lemma OtherDkgEdges(s: State)
    ensures OneEdge(s, DkgInit, ProposalCollected, DkgAwait(Commits), false)
    ensures OneEdge(s, DkgErrorInternal(MasterKeys), DkgAwait(MasterKeys), DkgCanceledByError(MasterKeys), true)
  {
  }

  // What the rows of a stage declare is what the union table says about the events of the stage.
  lemma StageDeclares(stage: Stage, s: State, e: Event, edge: Edge)
    ensures Declares(StageRows(stage), s, e, edge) <==> IsStageEvent(stage, e) && UnionEdge(s, e) == Some(edge)
  {
    hide Leads, Declares, UnionEdge, Plain, Internal, Auto, Is, StageRows, OneEdge, IsAutomatic;
    Automatics();
    var here := DkgAwait(stage);
    StageEdges(stage, s);
    StageAutoEdges(stage, s);
    UnionIs(s, e, edge, DkgConfirm(stage), here, here, false);
    UnionIs(s, e, edge, DkgTimeoutInternal(stage), here, DkgCanceledByTimeout(stage), true);
    UnionIs(s, e, edge, DkgValidate(stage), here, here, true);
    UnionIs(s, e, edge, DkgConfirmedInternal(stage), here, After(stage), true);
    StageRowsDeclare(stage, s, e, edge);
    PlainLeads(DkgConfirm(stage), here, here, s, e, edge);
    InternalLeads(DkgTimeoutInternal(stage), here, DkgCanceledByTimeout(stage), s, e, edge);
    AutoLeads(DkgValidate(stage), here, s, e, edge);
    InternalLeads(DkgConfirmedInternal(stage), here, After(stage), s, e, edge);
    ErrorLeads(stage, s, e, edge);
  }

  lemma DkgDeclares(s: State, e: Event, edge: Edge)
    ensures Declares(DkgRows(), s, e, edge) <==> MachineOf(e) == DkgMachine && UnionEdge(s, e) == Some(edge)
  {
    hide Leads, Declares, UnionEdge, Plain, Internal, StageRows, Is, OneEdge, IsAutomatic, MachineOf, IsStageEvent;
    Automatics();
    OtherDkgEdges(s);
    DkgEvents(e);
    var first := Plain(DkgInit, ProposalCollected, DkgAwait(Commits));
    var last := Internal(DkgErrorInternal(MasterKeys), DkgAwait(MasterKeys), DkgCanceledByError(MasterKeys));
    UnionIs(s, e, edge, DkgInit, ProposalCollected, DkgAwait(Commits), false);
    UnionIs(s, e, edge, DkgErrorInternal(MasterKeys), DkgAwait(MasterKeys), DkgCanceledByError(MasterKeys), true);
    NeverDeclared(s, e);
    var c, d, r, m := StageRows(Commits), StageRows(Deals), StageRows(Responses), StageRows(MasterKeys);
    DeclaresConcat([first] + c + d + r + m, [last], s, e, edge);
    DeclaresConcat([first] + c + d + r, m, s, e, edge);
    DeclaresConcat([first] + c + d, r, s, e, edge);
    DeclaresConcat([first] + c, d, s, e, edge);
    DeclaresConcat([first], c, s, e, edge);
    DeclaresOne(first, s, e, edge);
    DeclaresOne(last, s, e, edge);
    PlainLeads(DkgInit, ProposalCollected, DkgAwait(Commits), s, e, edge);
    InternalLeads(DkgErrorInternal(MasterKeys), DkgAwait(MasterKeys), DkgCanceledByError(MasterKeys), s, e, edge);
    StageDeclares(Commits, s, e, edge);
    StageDeclares(Deals, s, e, edge);
    StageDeclares(Responses, s, e, edge);
    StageDeclares(MasterKeys, s, e, edge);
  }

  lemma DkgEvents(e: Event)
    ensures MachineOf(e) == DkgMachine <==>
            e == DkgInit || e.DkgErrorInternal? || IsStageEvent(Commits, e) || IsStageEvent(Deals, e)
            || IsStageEvent(Responses, e) || IsStageEvent(MasterKeys, e)
  {
    if MachineOf(e) == DkgMachine && e != DkgInit {
      assert e.stage == Commits || e.stage == Deals || e.stage == Responses || e.stage == MasterKeys;
    }
  }

  lemma Automatics()
    ensures forall e :: IsAutomatic(e) <==> e == ValidateProposal || e.DkgValidate? || e == SigningValidate
  {
  }

  // The first three stages return an event that no table declares.
  lemma NeverDeclared(s: State, e: Event)
    ensures e.DkgErrorInternal? && e.stage != MasterKeys ==> UnionEdge(s, e) == None
  {
  }

  // ---------------------------------------------------------------- the proposal table

  lemma ProposalRowsDeclare(s: State, e: Event, edge: Edge)
    ensures Declares(ProposalRows(), s, e, edge) <==>
            || Leads(Plain(InitProposal, GlobalIdle, AwaitParticipants), s, e, edge)
            || Leads(Plain(ConfirmProposal, AwaitParticipants, AwaitParticipants), s, e, edge)
            || Leads(Plain(DeclineProposal, AwaitParticipants, AwaitParticipants), s, e, edge)
            || Leads(Internal(ProposalDeclined, AwaitParticipants, ProposalCanceledByParticipant), s, e, edge)
            || Leads(Auto(ValidateProposal, AwaitParticipants), s, e, edge)
            || Leads(Internal(ProposalValidated, AwaitParticipants, ProposalCollected), s, e, edge)
            || Leads(Internal(ProposalTimeout, AwaitParticipants, ProposalCanceledByTimeout), s, e, edge)
  {
    hide Leads, Plain, Internal, Auto;
  }

  lemma ProposalPlainEdges(s: State)
    ensures OneEdge(s, InitProposal, GlobalIdle, AwaitParticipants, false)
    ensures OneEdge(s, ConfirmProposal, AwaitParticipants, AwaitParticipants, false)
    ensures OneEdge(s, DeclineProposal, AwaitParticipants, AwaitParticipants, false)
  {
  }

  lemma ProposalInternalEdges(s: State)
    ensures OneEdge(s, ProposalDeclined, AwaitParticipants, ProposalCanceledByParticipant, true)
    ensures OneEdge(s, ValidateProposal, AwaitParticipants, AwaitParticipants, true)
    ensures OneEdge(s, ProposalValidated, AwaitParticipants, ProposalCollected, true)
    ensures OneEdge(s, ProposalTimeout, AwaitParticipants, ProposalCanceledByTimeout, true)
  {
  }

  predicate IsProposalEvent(e: Event) {
    e in {InitProposal, ConfirmProposal, DeclineProposal, ProposalDeclined, ValidateProposal, ProposalValidated,
      ProposalTimeout}
  }

  lemma ProposalEvents(s: State, e: Event)
    ensures MachineOf(e) == ProposalMachine && UnionEdge(s, e).Some? <==> IsProposalEvent(e) && UnionEdge(s, e).Some?
  {
  }

  lemma ProposalDeclares(s: State, e: Event, edge: Edge)
    ensures Declares(ProposalRows(), s, e, edge) <==> MachineOf(e) == ProposalMachine && UnionEdge(s, e) == Some(edge)
  {
    hide Leads, Declares, UnionEdge, Plain, Internal, Auto, Is, OneEdge, IsAutomatic, MachineOf, ProposalRows;
    Automatics();
    ProposalRowsDeclare(s, e, edge);
    ProposalPlainEdges(s);
    ProposalInternalEdges(s);
    ProposalEvents(s, e);
    var here := AwaitParticipants;
    UnionIs(s, e, edge, InitProposal, GlobalIdle, here, false);
    UnionIs(s, e, edge, ConfirmProposal, here, here, false);
    UnionIs(s, e, edge, DeclineProposal, here, here, false);
    UnionIs(s, e, edge, ProposalDeclined, here, ProposalCanceledByParticipant, true);
    UnionIs(s, e, edge, ValidateProposal, here, here, true);
    UnionIs(s, e, edge, ProposalValidated, here, ProposalCollected, true);
    UnionIs(s, e, edge, ProposalTimeout, here, ProposalCanceledByTimeout, true);
    PlainLeads(InitProposal, GlobalIdle, here, s, e, edge);
    PlainLeads(ConfirmProposal, here, here, s, e, edge);
    PlainLeads(DeclineProposal, here, here, s, e, edge);
    InternalLeads(ProposalDeclined, here, ProposalCanceledByParticipant, s, e, edge);
    AutoLeads(ValidateProposal, here, s, e, edge);
    InternalLeads(ProposalValidated, here, ProposalCollected, s, e, edge);
    InternalLeads(ProposalTimeout, here, ProposalCanceledByTimeout, s, e, edge);
  }

  // ---------------------------------------------------------------- the signing table

  lemma SigningRowsDeclare(s: State, e: Event, edge: Edge)
    ensures Declares(SigningRows(), s, e, edge) <==>
            || Leads(Plain(SigningInit, MasterKeyCollected, SigningIdle), s, e, edge)
            || Leads(Plain(SigningStart, SigningIdle, SigningAwait), s, e, edge)
            || Leads(Plain(PartialSign, SigningAwait, SigningAwait), s, e, edge)
            || Leads(Plain(PartialSignError, SigningAwait, SigningAwait), s, e, edge)
            || Leads(Internal(SigningTimeoutInternal, SigningAwait, SigningCanceledByTimeout), s, e, edge)
            || Leads(Internal(SigningErrorInternal, SigningAwait, SigningCanceledByError), s, e, edge)
            || Leads(Auto(SigningValidate, SigningAwait), s, e, edge)
            || Leads(Internal(SigningConfirmedInternal, SigningAwait, SigningCollected), s, e, edge)
            || Leads(RestartRow(), s, e, edge)
  {
    hide Leads, Plain, Internal, Auto, Declares;
    DeclaresConcat(IdleRows(), BatchRows(), s, e, edge);
    IdleRowsDeclare(s, e, edge);
    BatchRowsDeclare(s, e, edge);
  }

  lemma IdleRowsDeclare(s: State, e: Event, edge: Edge)
    ensures Declares(IdleRows(), s, e, edge) <==>
            || Leads(Plain(SigningInit, MasterKeyCollected, SigningIdle), s, e, edge)
            || Leads(Plain(SigningStart, SigningIdle, SigningAwait), s, e, edge)
            || Leads(RestartRow(), s, e, edge)
  {
    hide Leads, Plain;
  }

  lemma BatchRowsDeclare(s: State, e: Event, edge: Edge)
    ensures Declares(BatchRows(), s, e, edge) <==>
            || Leads(Plain(PartialSign, SigningAwait, SigningAwait), s, e, edge)
            || Leads(Plain(PartialSignError, SigningAwait, SigningAwait), s, e, edge)
            || Leads(Internal(SigningTimeoutInternal, SigningAwait, SigningCanceledByTimeout), s, e, edge)
            || Leads(Internal(SigningErrorInternal, SigningAwait, SigningCanceledByError), s, e, edge)
            || Leads(Auto(SigningValidate, SigningAwait), s, e, edge)
            || Leads(Internal(SigningConfirmedInternal, SigningAwait, SigningCollected), s, e, edge)
  {
    hide Leads, Plain, Internal, Auto;
  }

  lemma RestartLeads(s: State, e: Event, edge: Edge)
    ensures Leads(RestartRow(), s, e, edge) <==> e == SigningRestart && UnionEdge(s, e) == Some(edge)
  {
    assert EdgeOf(RestartRow()) == Edge(SigningRestart, SigningIdle, false, false, RunDefault);
    assert HasSource(RestartRow(), s) <==>
             s == SigningCollected || s == SigningCanceledByTimeout || s == SigningCanceledByError;
    assert RestartRow().name == SigningRestart;
    hide EdgeOf, HasSource, RestartRow, UnionEdge;
    RestartEdges(s);
  }

  lemma RestartEdges(s: State)
    ensures UnionEdge(s, SigningRestart) ==
            if s == SigningCollected || s == SigningCanceledByTimeout || s == SigningCanceledByError
            then Some(Edge(SigningRestart, SigningIdle, false, false, RunDefault)) else None
  {
  }

  lemma SigningIdleEdges(s: State)
    ensures OneEdge(s, SigningInit, MasterKeyCollected, SigningIdle, false)
    ensures OneEdge(s, SigningStart, SigningIdle, SigningAwait, false)
  {
  }

  lemma SigningPlainEdges(s: State)
    ensures OneEdge(s, PartialSign, SigningAwait, SigningAwait, false)
    ensures OneEdge(s, PartialSignError, SigningAwait, SigningAwait, false)
  {
  }

  lemma SigningCancelEdges(s: State)
    ensures OneEdge(s, SigningTimeoutInternal, SigningAwait, SigningCanceledByTimeout, true)
    ensures OneEdge(s, SigningErrorInternal, SigningAwait, SigningCanceledByError, true)
  {
  }

  lemma SigningInternalEdges(s: State)
    ensures OneEdge(s, SigningValidate, SigningAwait, SigningAwait, true)
    ensures OneEdge(s, SigningConfirmedInternal, SigningAwait, SigningCollected, true)
  {
  }

  predicate IsSigningEvent(e: Event) {
    e in {SigningInit, SigningStart, PartialSign, PartialSignError, SigningTimeoutInternal, SigningErrorInternal,
          SigningValidate, SigningConfirmedInternal, SigningRestart}
  }

  lemma SigningEvents(e: Event)
    ensures MachineOf(e) == SigningMachine <==> IsSigningEvent(e)
  {
  }

  lemma SigningDeclares(s: State, e: Event, edge: Edge)
    ensures Declares(SigningRows(), s, e, edge) <==> MachineOf(e) == SigningMachine && UnionEdge(s, e) == Some(edge)
  {
    hide Leads, Declares, UnionEdge, Plain, Internal, Auto, Is, OneEdge, IsAutomatic, MachineOf, SigningRows,
         RestartRow;
    Automatics();
    SigningRowsDeclare(s, e, edge);
    SigningIdleEdges(s);
    SigningPlainEdges(s);
    SigningCancelEdges(s);
    SigningInternalEdges(s);
    SigningEvents(e);
    RestartLeads(s, e, edge);
    var here := SigningAwait;
    UnionIs(s, e, edge, SigningInit, MasterKeyCollected, SigningIdle, false);
    UnionIs(s, e, edge, SigningStart, SigningIdle, here, false);
    UnionIs(s, e, edge, PartialSign, here, here, false);
    UnionIs(s, e, edge, PartialSignError, here, here, false);
    UnionIs(s, e, edge, SigningTimeoutInternal, here, SigningCanceledByTimeout, true);
    UnionIs(s, e, edge, SigningErrorInternal, here, SigningCanceledByError, true);
    UnionIs(s, e, edge, SigningValidate, here, here, true);
    UnionIs(s, e, edge, SigningConfirmedInternal, here, SigningCollected, true);
    PlainLeads(SigningInit, MasterKeyCollected, SigningIdle, s, e, edge);
    PlainLeads(SigningStart, SigningIdle, here, s, e, edge);
    PlainLeads(PartialSign, here, here, s, e, edge);
    PlainLeads(PartialSignError, here, here, s, e, edge);
    InternalLeads(SigningTimeoutInternal, here, SigningCanceledByTimeout, s, e, edge);
    InternalLeads(SigningErrorInternal, here, SigningCanceledByError, s, e, edge);
    AutoLeads(SigningValidate, here, s, e, edge);
    InternalLeads(SigningConfirmedInternal, here, SigningCollected, s, e, edge);
  }

  // ---------------------------------------------------------------- the union

  // Each machine declares exactly the union table's edges of its own events.
  lemma TablesAreTheUnion(id: MachineId, s: State, e: Event, edge: Edge)
    ensures Declares(Rows(id), s, e, edge) <==> MachineOf(e) == id && UnionEdge(s, e) == Some(edge)
  {
    hide Declares, MachineOf, UnionEdge, ProposalRows, DkgRows, SigningRows;
    match id
    case ProposalMachine => ProposalDeclares(s, e, edge);
    case DkgMachine => DkgDeclares(s, e, edge);
    case SigningMachine => SigningDeclares(s, e, edge);
  }

  // ---------------------------------------------------------------- automatic events and owners

  lemma AutoDeclared(rows: seq<EventDesc>, s: State, mode: RunMode, edge: Edge)
    ensures DeclaresAuto(rows, s, mode, edge) <==>
              edge.isAuto && edge.mode == mode && Declares(rows, s, edge.event, edge)
  {
    hide HasSource, Declares, DeclaresAuto;
    assert forall d :: LeadsAlone(d, s, mode, edge) <==>
             edge.isAuto && edge.mode == mode && Leads(d, s, edge.event, edge);
    SomeRow(rows, s, mode, edge);
  }

  lemma SomeRow(rows: seq<EventDesc>, s: State, mode: RunMode, edge: Edge)
    requires forall d :: LeadsAlone(d, s, mode, edge) <==>
               edge.isAuto && edge.mode == mode && Leads(d, s, edge.event, edge)
    ensures DeclaresAuto(rows, s, mode, edge) <==>
              edge.isAuto && edge.mode == mode && Declares(rows, s, edge.event, edge)
  {
    hide LeadsAlone, Leads;
  }

  // The only automatic events run after a transition, one for each awaiting state.
  lemma AutosAreTheUnion(id: MachineId, s: State, mode: RunMode, edge: Edge)
    ensures DeclaresAuto(Rows(id), s, mode, edge) <==>
            && mode == RunAfter && AutoEvent(s) != NoEvent && MachineOf(AutoEvent(s)) == id
            && edge == Edge(AutoEvent(s), s, true, true, RunAfter)
  {
    hide Declares, DeclaresAuto, Rows, Row, MachineOf;
    AutoDeclared(Rows(id), s, mode, edge);
    TablesAreTheUnion(id, s, edge.event, edge);
    AutomaticRows(s, edge.event);
  }

  lemma AutomaticRows(s: State, e: Event)
    ensures IsAutomatic(e) ==> Row(s, e) == if e == AutoEvent(s) then Some(Transition(s, true)) else None
    ensures AutoEvent(s) != NoEvent ==> IsAutomatic(AutoEvent(s))
  {
  }

  lemma SourceDeclares(rows: seq<EventDesc>, s: State)
    ensures IsSource(rows, s) <==> exists e, edge :: Declares(rows, s, e, edge)
  {
    if IsSource(rows, s) {
      var d :| d in rows && HasSource(d, s);
      assert Leads(d, s, d.name, EdgeOf(d));
      assert Declares(rows, s, d.name, EdgeOf(d));
    }
  }

  // Some event that leaves a state with an owner.
  function Exit(s: State): Event {
    match s
    case GlobalIdle => InitProposal
    case AwaitParticipants => ConfirmProposal
    case ProposalCollected => DkgInit
    case DkgAwait(stage) => DkgConfirm(stage)
    case DkgCanceledByError(stage) => DkgError(stage)
    case MasterKeyCollected => SigningInit
    case SigningIdle => SigningStart
    case SigningAwait => PartialSign
    case SigningCollected | SigningCanceledByTimeout | SigningCanceledByError => SigningRestart
    case _ => NoEvent
  }

  lemma RowOwner(s: State, e: Event)
    ensures Row(s, e).Some? ==> Owner(s) == Some(MachineOf(e))
  {
  }

  lemma ExitLeaves(s: State)
    ensures Owner(s).Some? ==> Row(s, Exit(s)).Some? && MachineOf(Exit(s)) == Owner(s).value
  {
  }

  // A state is a source of exactly one table, its owner's; the states without an owner are those
  // that no machine can resume.
  lemma SourcesAreDisjoint(id: MachineId, s: State)
    ensures IsSource(Rows(id), s) <==> Owner(s) == Some(id)
    ensures Owner(s).Some? <==> Routable(s)
  {
    hide IsSource, Declares, Rows, Row, MachineOf, Exit;
    SourceDeclares(Rows(id), s);
    forall e, edge
      ensures Declares(Rows(id), s, e, edge) ==> Owner(s) == Some(id)
    {
      TablesAreTheUnion(id, s, e, edge);
      RowOwner(s, e);
    }
    ExitLeaves(s);
    if Owner(s) == Some(id) {
      TablesAreTheUnion(id, s, Exit(s), UnionEdge(s, Exit(s)).value);
    }
  }

  // ---------------------------------------------------------------- the tables are accepted

  lemma RowsOkConcat(a: seq<EventDesc>, b: seq<EventDesc>)
    requires RowsOk(a) && RowsOk(b)
    requires forall x, y | x in a && y in b :: Apart(x, y)
    ensures RowsOk(a + b)
  {
    hide RowOk, Apart;
    var c := a + b;
    forall i, j | 0 <= i < j < |c|
      ensures Apart(c[i], c[j])
    {
      assert c[i] == if i < |a| then a[i] else b[i - |a|];
      assert c[j] == if j < |a| then a[j] else b[j - |a|];
    }
  }

  lemma RowsOkOne(d: EventDesc)
    requires RowOk(d)
    ensures RowsOk([d])
  {
    hide RowOk, Apart;
  }

  lemma SimpleRowOk(d: EventDesc, src: State)
    requires d.src == [src] && src != NoState && src != GlobalDone && d.name != NoEvent && d.dst != NoState
    ensures RowOk(d)
  {
    assert d.src[0] == src;
  }

  predicate NamesOnce(rows: seq<EventDesc>) {
    forall i, j | 0 <= i < j < |rows| :: rows[i].name != rows[j].name
  }

  // Rows with different names, at most one of them automatic.
  lemma OneAuto(rows: seq<EventDesc>, k: nat)
    requires forall d | d in rows :: RowOk(d)
    requires NamesOnce(rows)
    requires forall i | 0 <= i < |rows| :: rows[i].isAuto ==> i == k
    ensures RowsOk(rows)
  {
    hide RowOk;
  }

  lemma ProposalRowsOk()
    ensures RowsOk(ProposalRows())
  {
    hide RowsOk, RowOk;
    var rows := ProposalRows();
    forall d | d in rows
      ensures RowOk(d)
    {
      SimpleRowOk(d, d.src[0]);
    }
    OneAuto(rows, 4);
  }

  lemma StageNamesOnce(stage: Stage)
    ensures NamesOnce(StageRows(stage))
  {
  }

  lemma StageRowsOk(stage: Stage)
    ensures RowsOk(StageRows(stage))
  {
    hide RowsOk, RowOk, NamesOnce;
    var rows := StageRows(stage);
    StageNamesOnce(stage);
    ErrorRowOk(stage);
    forall d | d in rows && d != ErrorRow(stage)
      ensures RowOk(d)
    {
      SimpleRowOk(d, DkgAwait(stage));
    }
    OneAuto(rows, 3);
  }

  lemma ErrorRowOk(stage: Stage)
    ensures RowOk(ErrorRow(stage))
  {
    assert ErrorRow(stage).src[0] != NoState;
  }

  lemma RestartRowOk()
    ensures RowOk(RestartRow())
  {
    assert RestartRow().src[0] != NoState;
  }

  lemma BatchRowsOk()
    ensures RowsOk(BatchRows())
  {
    hide RowsOk, RowOk;
    var rows := BatchRows();
    forall d | d in rows
      ensures RowOk(d)
    {
      SimpleRowOk(d, SigningAwait);
    }
    OneAuto(rows, 4);
  }

  lemma IdleRowsOk()
    ensures RowsOk(IdleRows())
  {
    hide RowsOk, RowOk;
    var rows := IdleRows();
    RestartRowOk();
    SimpleRowOk(rows[0], MasterKeyCollected);
    SimpleRowOk(rows[1], SigningIdle);
    OneAuto(rows, 3);
  }

  lemma IdleRowsAre(d: EventDesc)
    requires d in IdleRows()
    ensures !d.isAuto && (d.name == SigningInit || d.name == SigningStart || d.name == SigningRestart)
  {
  }

  lemma BatchRowsAre(d: EventDesc)
    requires d in BatchRows()
    ensures d.name != SigningInit && d.name != SigningStart && d.name != SigningRestart
  {
  }

  lemma SigningRowsOk()
    ensures RowsOk(SigningRows())
  {
    hide RowsOk, IdleRows, BatchRows;
    IdleRowsOk();
    BatchRowsOk();
    forall x, y | x in IdleRows() && y in BatchRows()
      ensures Apart(x, y)
    {
      IdleRowsAre(x);
      BatchRowsAre(y);
    }
    RowsOkConcat(IdleRows(), BatchRows());
  }

  // The rows of a stage mention only their own events, and run by themselves only there.
  lemma StageRowsAre(stage: Stage, d: EventDesc)
    requires d in StageRows(stage)
    ensures IsStageEvent(stage, d.name) && (d.isAuto ==> d.src == [DkgAwait(stage)])
  {
  }

  lemma StagesApart(stage: Stage, stage': Stage)
    requires stage != stage'
    ensures forall x, y | x in StageRows(stage) && y in StageRows(stage') :: Apart(x, y)
  {
    hide StageRows;
    forall x, y | x in StageRows(stage) && y in StageRows(stage')
      ensures Apart(x, y)
    {
      StageRowsAre(stage, x);
      StageRowsAre(stage', y);
    }
  }

  lemma OddRows(d: EventDesc, stage: Stage)
    requires !d.isAuto && (d.name == DkgInit || d.name.DkgErrorInternal?)
    ensures forall y | y in StageRows(stage) :: Apart(d, y) && Apart(y, d)
  {
    hide StageRows;
    forall y | y in StageRows(stage)
      ensures Apart(d, y) && Apart(y, d)
    {
      StageRowsAre(stage, y);
    }
  }

  lemma DkgRowsOk()
    ensures RowsOk(DkgRows())
  {
    hide RowsOk, RowOk, StageRows, Apart;
    var first := Plain(DkgInit, ProposalCollected, DkgAwait(Commits));
    var last := Internal(DkgErrorInternal(MasterKeys), DkgAwait(MasterKeys), DkgCanceledByError(MasterKeys));
    var c, d, r, m := StageRows(Commits), StageRows(Deals), StageRows(Responses), StageRows(MasterKeys);
    SimpleRowOk(first, ProposalCollected);
    SimpleRowOk(last, DkgAwait(MasterKeys));
    RowsOkOne(first);
    RowsOkOne(last);
    forall stage: Stage
      ensures RowsOk(StageRows(stage))
      ensures forall y | y in StageRows(stage) :: Apart(first, y) && Apart(y, last)
      ensures forall stage', x, y | stage' != stage && x in StageRows(stage) && y in StageRows(stage') :: Apart(x, y)
    {
      StageRowsOk(stage);
      OddRows(first, stage);
      OddRows(last, stage);
      forall stage' | stage' != stage
        ensures forall x, y | x in StageRows(stage) && y in StageRows(stage') :: Apart(x, y)
      {
        StagesApart(stage, stage');
      }
    }
    RowsOkConcat([first], c);
    RowsOkConcat([first] + c, d);
    RowsOkConcat([first] + c + d, r);
    RowsOkConcat([first] + c + d + r, m);
    EndsApart(first, last);
    RowsOkConcat([first] + c + d + r + m, [last]);
  }

  lemma EndsApart(a: EventDesc, b: EventDesc)
    requires a.name != b.name && !a.isAuto
    ensures Apart(a, b)
  {
  }

  lemma TwoStates(rows: seq<EventDesc>, a: EventDesc, b: EventDesc)
    requires a in rows && b in rows && a.dst != b.dst
    ensures 2 <= |Destinations(rows)|
  {
    assert {a.dst, b.dst} <= Destinations(rows);
    SubsetSize({a.dst, b.dst}, Destinations(rows));
    assert |{a.dst, b.dst}| == 2;
  }

  lemma ProposalNames()
    ensures Callbacks(ProposalMachine) <= EventNames(ProposalRows())
  {
    var rows := ProposalRows();
    assert {rows[0].name, rows[1].name, rows[2].name, rows[4].name} <= EventNames(rows);
  }

  lemma ProposalAccepted()
    ensures WellFormed(Initial(ProposalMachine), ProposalRows(), Callbacks(ProposalMachine))
  {
    hide RowsOk, Destinations, EventNames, Callbacks;
    var rows := ProposalRows();
    ProposalNames();
    ProposalRowsOk();
    TwoStates(rows, rows[0], rows[5]);
  }

  lemma IdleNames()
    ensures {SigningInit, SigningStart, SigningRestart} <= EventNames(IdleRows())
  {
    var rows := IdleRows();
    assert {rows[0].name, rows[1].name, rows[2].name} <= EventNames(rows);
  }

  lemma BatchNames()
    ensures {PartialSign, PartialSignError, SigningValidate} <= EventNames(BatchRows())
  {
    var rows := BatchRows();
    assert {rows[0].name, rows[1].name, rows[4].name} <= EventNames(rows);
  }

  lemma SigningAccepted()
    ensures WellFormed(Initial(SigningMachine), SigningRows(), Callbacks(SigningMachine))
  {
    hide RowsOk, Destinations, EventNames, BatchRows;
    SigningRowsOk();
    IdleNames();
    BatchNames();
    NamesOfParts(IdleRows(), BatchRows());
    var rows := IdleRows();
    TwoStates(SigningRows(), rows[0], rows[1]);
  }

  lemma StageNames(stage: Stage)
    ensures {DkgConfirm(stage), DkgError(stage), DkgValidate(stage)} <= EventNames(StageRows(stage))
  {
    var rows := StageRows(stage);
    assert {rows[0].name, rows[1].name, rows[3].name} <= EventNames(rows);
  }

  lemma NamesOfParts(a: seq<EventDesc>, b: seq<EventDesc>)
    ensures EventNames(a + b) == EventNames(a) + EventNames(b)
  {
  }

  lemma DkgNames()
    ensures Callbacks(DkgMachine) <= EventNames(DkgRows())
  {
    hide StageRows, EventNames;
    var first := Plain(DkgInit, ProposalCollected, DkgAwait(Commits));
    var last := Internal(DkgErrorInternal(MasterKeys), DkgAwait(MasterKeys), DkgCanceledByError(MasterKeys));
    var c, d, r, m := StageRows(Commits), StageRows(Deals), StageRows(Responses), StageRows(MasterKeys);
    NameOf(first);
    StageNames(Commits);
    StageNames(Deals);
    StageNames(Responses);
    StageNames(MasterKeys);
    NamesOfParts([first] + c + d + r + m, [last]);
    NamesOfParts([first] + c + d + r, m);
    NamesOfParts([first] + c + d, r);
    NamesOfParts([first] + c, d);
    NamesOfParts([first], c);
  }

  lemma NameOf(d: EventDesc)
    ensures d.name in EventNames([d])
  {
  }

  lemma DkgAccepted()
    ensures WellFormed(Initial(DkgMachine), DkgRows(), Callbacks(DkgMachine))
  {
    hide RowsOk, Destinations, EventNames, Callbacks;
    DkgRowsOk();
    DkgNames();
    var first := Plain(DkgInit, ProposalCollected, DkgAwait(Commits));
    var last := Internal(DkgErrorInternal(MasterKeys), DkgAwait(MasterKeys), DkgCanceledByError(MasterKeys));
    assert first in DkgRows() && last in DkgRows();
    TwoStates(DkgRows(), first, last);
  }

  // The builder accepts each of the three tables, so starting a machine never panics.
  lemma TablesAreAccepted(id: MachineId)
    ensures WellFormed(Initial(id), Rows(id), Callbacks(id))
  {
    hide WellFormed, ProposalRows, DkgRows, SigningRows, Callbacks;
    match id
    case ProposalMachine => ProposalAccepted();
    case DkgMachine => DkgAccepted();
    case SigningMachine => SigningAccepted();
  }
}
