/** The transition tables of the three machines and the check that turns a table into a machine. */
module Tables {
  import opened Names

  datatype RunMode = RunDefault | RunBefore | RunAfter

  datatype EventDesc = EventDesc(
    name: Event, src: seq<State>, dst: State, isInternal: bool, isAuto: bool, mode: RunMode)

  // A row as the machine keeps it.
  datatype Edge = Edge(event: Event, dst: State, isInternal: bool, isAuto: bool, mode: RunMode)

  datatype Table = Table(
    initialState: State, initialEvent: Event,
    transitions: map<(State, Event), Edge>, autos: map<(State, RunMode), Edge>,
    callbacks: set<Event>, finStates: set<State>)

  // ---------------------------------------------------------------- the three tables

  function Plain(name: Event, src: State, dst: State): EventDesc {
    EventDesc(name, [src], dst, false, false, RunDefault)
  }

  function Internal(name: Event, src: State, dst: State): EventDesc {
    EventDesc(name, [src], dst, true, false, RunDefault)
  }

  function Auto(name: Event, src: State): EventDesc {
    EventDesc(name, [src], src, true, true, RunDefault)
  }

  function ProposalRows(): seq<EventDesc> {
    [ Plain(InitProposal, GlobalIdle, AwaitParticipants),
      Plain(ConfirmProposal, AwaitParticipants, AwaitParticipants),
      Plain(DeclineProposal, AwaitParticipants, AwaitParticipants),
      Internal(ProposalDeclined, AwaitParticipants, ProposalCanceledByParticipant),
      Auto(ValidateProposal, AwaitParticipants),
      Internal(ProposalValidated, AwaitParticipants, ProposalCollected),
      Internal(ProposalTimeout, AwaitParticipants, ProposalCanceledByTimeout) ]
  }

  // A reported error ends the stage, and may be followed by more reports.
  function ErrorRow(stage: Stage): EventDesc {
    EventDesc(DkgError(stage), [DkgAwait(stage), DkgCanceledByError(stage)], DkgCanceledByError(stage), false, false,
      RunDefault)
  }

  function After(stage: Stage): State {
    if stage == MasterKeys then MasterKeyCollected else DkgAwait(NextStage(stage))
  }

  // The rows the first three stages share; master keys add an internal way to the error state.
  function StageRows(stage: Stage): seq<EventDesc> {
    var here := DkgAwait(stage);
    [ Plain(DkgConfirm(stage), here, here),
      ErrorRow(stage),
      Internal(DkgTimeoutInternal(stage), here, DkgCanceledByTimeout(stage)),
      Auto(DkgValidate(stage), here),
      Internal(DkgConfirmedInternal(stage), here, After(stage)) ]
  }

  function DkgRows(): seq<EventDesc> {
    [Plain(DkgInit, ProposalCollected, DkgAwait(Commits))]
    + StageRows(Commits) + StageRows(Deals) + StageRows(Responses) + StageRows(MasterKeys)
    + [Internal(DkgErrorInternal(MasterKeys), DkgAwait(MasterKeys), DkgCanceledByError(MasterKeys))]
  }

  // The rows of a running batch.
  function BatchRows(): seq<EventDesc> {
    [ Plain(PartialSign, SigningAwait, SigningAwait),
      Plain(PartialSignError, SigningAwait, SigningAwait),
      Internal(SigningTimeoutInternal, SigningAwait, SigningCanceledByTimeout),
      Internal(SigningErrorInternal, SigningAwait, SigningCanceledByError),
      Auto(SigningValidate, SigningAwait),
      Internal(SigningConfirmedInternal, SigningAwait, SigningCollected) ]
  }

  function RestartRow(): EventDesc {
    EventDesc(SigningRestart, [SigningCollected, SigningCanceledByTimeout, SigningCanceledByError], SigningIdle,
              false, false, RunDefault)
  }

  // The rows around it.
  function IdleRows(): seq<EventDesc> {
    [ Plain(SigningInit, MasterKeyCollected, SigningIdle),
      Plain(SigningStart, SigningIdle, SigningAwait),
      RestartRow() ]
  }

  function SigningRows(): seq<EventDesc> {
    IdleRows() + BatchRows()
  }

  function Rows(id: MachineId): seq<EventDesc> {
    match id
    case ProposalMachine => ProposalRows()
    case DkgMachine => DkgRows()
    case SigningMachine => SigningRows()
  }

  function Initial(id: MachineId): State {
    match id
    case ProposalMachine => GlobalIdle
    case DkgMachine => ProposalCollected
    case SigningMachine => MasterKeyCollected
  }

  // The events with a callback.
  function Callbacks(id: MachineId): set<Event> {
    match id
    case ProposalMachine => {InitProposal, ConfirmProposal, DeclineProposal, ValidateProposal}
    case DkgMachine =>
      { DkgInit,
        DkgConfirm(Commits), DkgError(Commits), DkgValidate(Commits),
        DkgConfirm(Deals), DkgError(Deals), DkgValidate(Deals),
        DkgConfirm(Responses), DkgError(Responses), DkgValidate(Responses),
        DkgConfirm(MasterKeys), DkgError(MasterKeys), DkgValidate(MasterKeys) }
    case SigningMachine =>
      {SigningInit, SigningStart, PartialSign, PartialSignError, SigningValidate, SigningRestart}
  }

  // ---------------------------------------------------------------- what a list of rows means

  predicate HasSource(d: EventDesc, s: State) {
    s != NoState && s in d.src
  }

  function EffectiveMode(d: EventDesc): RunMode {
    if d.isAuto && d.mode == RunDefault then RunAfter else d.mode
  }

  function EdgeOf(d: EventDesc): Edge {
    Edge(d.name, d.dst, d.isInternal, d.isAuto, EffectiveMode(d))
  }

  predicate SourcesOnce(src: seq<State>) {
    forall i, j | 0 <= i < j < |src| :: src[i] != NoState ==> src[i] != src[j]
  }

  predicate RowOk(d: EventDesc) {
    && d.name != NoEvent && d.dst != NoState
    && GlobalDone !in d.src && SourcesOnce(d.src)
    && exists k :: 0 <= k < |d.src| && d.src[k] != NoState
  }

  // Two rows may stand in one table.
  ghost predicate Apart(d: EventDesc, d': EventDesc) {
    && d.name != d'.name
    && (d.isAuto && d'.isAuto && EffectiveMode(d) == EffectiveMode(d') ==>
          forall s :: HasSource(d, s) ==> !HasSource(d', s))
  }

  ghost predicate RowsOk(rows: seq<EventDesc>) {
    && (forall d | d in rows :: RowOk(d))
    && (forall i, j | 0 <= i < j < |rows| :: Apart(rows[i], rows[j]))
  }

  function Destinations(rows: seq<EventDesc>): set<State> {
    set d | d in rows :: d.dst
  }

  function EventNames(rows: seq<EventDesc>): set<Event> {
    set d | d in rows :: d.name
  }

  // A row leads from a state, by an event, along an edge.
  predicate Leads(d: EventDesc, s: State, e: Event, edge: Edge) {
    d.name == e && HasSource(d, s) && edge == EdgeOf(d)
  }

  predicate LeadsAlone(d: EventDesc, s: State, mode: RunMode, edge: Edge) {
    d.isAuto && EffectiveMode(d) == mode && HasSource(d, s) && edge == EdgeOf(d)
  }

  ghost predicate Declares(rows: seq<EventDesc>, s: State, e: Event, edge: Edge) {
    exists d :: d in rows && Leads(d, s, e, edge)
  }

  ghost predicate DeclaresAuto(rows: seq<EventDesc>, s: State, mode: RunMode, edge: Edge) {
    exists d :: d in rows && LeadsAlone(d, s, mode, edge)
  }

  ghost predicate IsSource(rows: seq<EventDesc>, s: State) {
    exists d :: d in rows && HasSource(d, s)
  }

  ghost predicate HoldsTransitions(rows: seq<EventDesc>, transitions: map<(State, Event), Edge>) {
    && (forall s, e | (s, e) in transitions :: Declares(rows, s, e, transitions[(s, e)]))
    && (forall s, e, edge | Declares(rows, s, e, edge) :: (s, e) in transitions && transitions[(s, e)] == edge)
  }

  ghost predicate HoldsAutos(rows: seq<EventDesc>, autos: map<(State, RunMode), Edge>) {
    && (forall s, mode | (s, mode) in autos :: DeclaresAuto(rows, s, mode, autos[(s, mode)]))
    && (forall s, mode, edge | DeclaresAuto(rows, s, mode, edge) :: (s, mode) in autos && autos[(s, mode)] == edge)
  }

  ghost predicate WellFormed(initial: State, rows: seq<EventDesc>, callbacks: set<Event>) {
    && initial != NoState && rows != [] && RowsOk(rows)
    && 2 <= |Destinations(rows)|
    && callbacks <= EventNames(rows)
  }

  // The first row that leaves a state.
  function FirstFrom(rows: seq<EventDesc>, s: State): Event {
    if rows == [] then NoEvent else if HasSource(rows[0], s) then rows[0].name else FirstFrom(rows[1..], s)
  }

  ghost predicate Holds(t: Table, initial: State, rows: seq<EventDesc>, callbacks: set<Event>) {
    && t.initialState == initial && t.callbacks == callbacks
    && t.initialEvent == FirstFrom(rows, initial)
    && HoldsTransitions(rows, t.transitions) && HoldsAutos(rows, t.autos)
    && (forall s :: s in t.finStates <==>
          s in Destinations(rows) && s != GlobalIdle && (s == GlobalDone || !IsSource(rows, s)))
  }
}
