/** Rounds as a client changes them: what a message does to each round, reinitialisations included, and
    what of the runs of one round holds at the client. */
module ClientRounds {
  import opened Names
  import opened Payloads
  import opened NodeStep
  import opened RoundInvariant
  import opened Moves
  import opened Steps
  import opened Runs
  import opened Mailbox
  import opened Delivery
  import opened Polling
  import opened Progress
  import History
  import NoReturn
  import Provenance
  import Replay
  import Safety

  // ---------------------------------------------------------------- one message

  // The reinitialisation that a message makes a client with these rounds carry out.
  ghost function Carried(c: Setup, store: Store, m: Message): Option<ReDkg> {
    if m.event == ReinitDkg && c.redkg(m).Some? && c.redkg(m).value.dkgId !in store then c.redkg(m) else None
  }

  ghost function ReplayOf(c: Setup, q: ReDkg): seq<Input> {
    InputsOf(Replayed(q.messages, c.name), c.clock, true)
  }

  // What the node steps through for a message: the message itself, or the old log it carries.
  ghost function FedBy(c: Setup, store: Store, m: Message): seq<Input> {
    match Carried(c, store, m)
    case Some(q) => ReplayOf(c, q)
    case None => if m.event == ReinitDkg then [] else [Input(m, c.clock(m), c.skip)]
  }

  // What a reinitialisation loads: the round its replay leaves, or a new one.
  ghost function Reborn(c: Setup, q: ReDkg): LoadResult {
    Load(RoundRun(c.env, None, OfRound(ReplayOf(c, q), q.dkgId)), q.dkgId)
  }

  // The dump of a round after a message.
  ghost function RoundAfter(c: Setup, store: Store, m: Message, round: string): Option<Inst> {
    var heard := RoundRun(c.env, Lookup(store, round), OfRound(FedBy(c, store, m), round));
    match Carried(c, store, m)
    case None => heard
    case Some(q) =>
      match Reborn(c, q)
      case LoadFailed(_) => heard
      case Loaded(i) =>
        if m.round == round then Some(WithKeys(i, q.participants)) else if q.dkgId == round then Some(i) else heard
  }

  lemma HandledStore(c: Setup, store: Store, m: Message)
    ensures var fed := Run(c.env, store, FedBy(c, store, m));
            HandleEffect(c, store, m).store
            == match Carried(c, store, m)
               case None => fed
               case Some(q) => Rekey(fed, m.round, q)
  {
    hide Update, Rekey, OpOf, ReplayOps;
    var x := Input(m, c.clock(m), c.skip);
    assert [x][1..] == [];
    assert Run(c.env, store, [x]) == Update(c.env, store, x);
  }

  // What a client makes of any message, for every round: the round hears the messages that name it,
  // of an old log as well, unchecked; and a reinitialisation saves the round it brought up once more,
  // with new keys, under the name in the message, whatever stood there.
  lemma HandledRound(c: Setup, store: Store, m: Message, round: string)
    ensures Lookup(HandleEffect(c, store, m).store, round) == RoundAfter(c, store, m, round)
  {
    hide HandleEffect, FedBy, Run, RoundRun, OfRound, InputsOf, Replayed, Load, Rekeyed, ReplayOf;
    HandledStore(c, store, m);
    RoundsAreIsolated(c.env, store, FedBy(c, store, m), round);
    var req := Carried(c, store, m);
    if req.Some? {
      RoundsAreIsolated(c.env, store, FedBy(c, store, m), req.value.dkgId);
      FedReplay(c, store, m);
    }
  }

  lemma FedReplay(c: Setup, store: Store, m: Message)
    ensures Carried(c, store, m).Some? ==> FedBy(c, store, m) == ReplayOf(c, Carried(c, store, m).value)
    ensures Carried(c, store, m).Some? ==> Carried(c, store, m).value.dkgId !in store
  {
    hide ReplayOf;
  }

  // ---------------------------------------------------------------- new keys

  // No later entry names the same participant.
  ghost predicate LastNamed(cs: seq<Comm>, k: int) {
    0 <= k < |cs| && forall l | k < l < |cs| :: cs[l].name != cs[k].name
  }

  // The keys of the last entry for each listed name, and the old ones for all others.
  ghost predicate NewKeys(keys: map<string, Bytes>, cs: seq<Comm>, all: map<string, Bytes>) {
    && (forall name :: name in all <==> name in keys || exists k :: 0 <= k < |cs| && cs[k].name == name)
    && (forall k | LastNamed(cs, k) :: cs[k].name in all && all[cs[k].name] == cs[k].key)
    && (forall name | name in keys && (forall k | 0 <= k < |cs| :: cs[k].name != name) ::
          name in all && all[name] == keys[name])
  }

  lemma RekeyedMore(keys: map<string, Bytes>, cs: seq<Comm>)
    requires cs != []
    ensures var n := |cs| - 1; Rekeyed(keys, cs) == Rekeyed(keys, cs[..n])[cs[n].name := cs[n].key]
  {
  }

  lemma {:induction false} RekeyedNames(keys: map<string, Bytes>, cs: seq<Comm>, name: string)
    ensures name in Rekeyed(keys, cs) <==> name in keys || exists k :: 0 <= k < |cs| && cs[k].name == name
    decreases |cs|
  {
    if cs != [] {
      var n := |cs| - 1;
      var before := cs[..n];
      RekeyedMore(keys, cs);
      hide Rekeyed;
      RekeyedNames(keys, before, name);
      assert forall k | 0 <= k < n :: before[k] == cs[k];
      assert cs[n].name == name ==> exists k :: 0 <= k < |cs| && cs[k].name == name;
    }
  }

  lemma {:induction false} RekeyedLast(keys: map<string, Bytes>, cs: seq<Comm>, k: int)
    requires LastNamed(cs, k)
    ensures cs[k].name in Rekeyed(keys, cs) && Rekeyed(keys, cs)[cs[k].name] == cs[k].key
    decreases |cs|
  {
    var n := |cs| - 1;
    RekeyedMore(keys, cs);
    hide Rekeyed;
    if k < n {
      assert cs[n].name != cs[k].name && cs[..n][k] == cs[k];
      assert forall l | k < l < n :: cs[..n][l] == cs[l];
      RekeyedLast(keys, cs[..n], k);
    }
  }

  lemma {:induction false} RekeyedOld(keys: map<string, Bytes>, cs: seq<Comm>, name: string)
    requires name in keys && forall k | 0 <= k < |cs| :: cs[k].name != name
    ensures name in Rekeyed(keys, cs) && Rekeyed(keys, cs)[name] == keys[name]
    decreases |cs|
  {
    if cs != [] {
      var n := |cs| - 1;
      RekeyedMore(keys, cs);
      hide Rekeyed;
      assert forall k | 0 <= k < n :: cs[..n][k] == cs[k];
      RekeyedOld(keys, cs[..n], name);
    }
  }

  lemma RekeyedIs(keys: map<string, Bytes>, cs: seq<Comm>)
    ensures NewKeys(keys, cs, Rekeyed(keys, cs))
  {
    hide Rekeyed, LastNamed;
    forall name
      ensures name in Rekeyed(keys, cs) <==> name in keys || exists k :: 0 <= k < |cs| && cs[k].name == name
    {
      RekeyedNames(keys, cs, name);
    }
    forall k | LastNamed(cs, k)
      ensures 0 <= k < |cs| && cs[k].name in Rekeyed(keys, cs) && Rekeyed(keys, cs)[cs[k].name] == cs[k].key
    {
      LastInside(cs, k);
      RekeyedLast(keys, cs, k);
    }
    forall name | name in keys && (forall k | 0 <= k < |cs| :: cs[k].name != name)
      ensures name in Rekeyed(keys, cs) && Rekeyed(keys, cs)[name] == keys[name]
    {
      RekeyedOld(keys, cs, name);
    }
  }

  lemma LastInside(cs: seq<Comm>, k: int)
    requires LastNamed(cs, k)
    ensures 0 <= k < |cs|
  {
  }

  // The round that a reinitialisation saves is the one it brought up, with the new keys.
  lemma KeysAreWritten(c: Setup, store: Store, m: Message)
    requires Carried(c, store, m).Some? && Reborn(c, Carried(c, store, m).value).Loaded?
    ensures var q := Carried(c, store, m).value;
            var i, n := Reborn(c, q).inst, Lookup(HandleEffect(c, store, m).store, m.round);
            && n.Some? && n.value == i.(payload := i.payload.(pubKeys := n.value.payload.pubKeys))
            && NewKeys(i.payload.pubKeys, q.participants, n.value.payload.pubKeys)
  {
    hide HandleEffect, FedBy, RoundRun, Reborn, NewKeys, Rekeyed;
    HandledRound(c, store, m, m.round);
    var q := Carried(c, store, m).value;
    RekeyedIs(Reborn(c, q).inst.payload.pubKeys, q.participants);
  }

  // ---------------------------------------------------------------- cancelled rounds

  // The message saves another round's dump under this name.
  ghost predicate Replaces(c: Setup, store: Store, m: Message, round: string) {
    var req := Carried(c, store, m);
    req.Some? && m.round == round && req.value.dkgId != round && Reborn(c, req.value).Loaded?
  }

  // A cancelled round keeps its dump, whatever message comes, unless it is replaced.
  lemma CancelledHandled(c: Setup, store: Store, m: Message, round: string)
    requires round in store && Inv(store[round]) && Cancelled(store[round].state)
    ensures Lookup(HandleEffect(c, store, m).store, round)
            == if Replaces(c, store, m, round)
               then Some(WithKeys(Reborn(c, c.redkg(m).value).inst, c.redkg(m).value.participants))
               else Some(store[round])
  {
    hide HandleEffect, FedBy, RoundRun, Inv, WithKeys, ReplayOf, Reborn;
    HandledRound(c, store, m, round);
    FedReplay(c, store, m);
    Safety.CancelledForever(c.env, store[round], OfRound(FedBy(c, store, m), round));
  }

  // None of the messages replaces the round.
  ghost predicate NeverReplaced(c: Setup, store: Store, ms: seq<Message>, round: string)
    decreases |ms|
  {
    ms == [] ||
    (!Replaces(c, store, ms[0], round) && NeverReplaced(c, HandleEffect(c, store, ms[0]).store, ms[1..], round))
  }

  // Over any messages that do not replace it, a cancelled round keeps its dump.
  lemma {:induction false} CancelledAtClient(c: Setup, store: Store, ms: seq<Message>, round: string)
    requires round in store && Inv(store[round]) && Cancelled(store[round].state)
    requires NeverReplaced(c, store, ms, round)
    ensures Lookup(EffectOf(c, store, ms).store, round) == Some(store[round])
    decreases |ms|
  {
    hide HandleEffect, Inv, Replaces;
    if ms != [] {
      CancelledHandled(c, store, ms[0], round);
      CancelledAtClient(c, HandleEffect(c, store, ms[0]).store, ms[1..], round);
    }
  }

  // No round is replaced without a reinitialisation that names it.
  lemma {:induction false} NotNamedNotReplaced(c: Setup, store: Store, ms: seq<Message>, round: string)
    requires forall m | m in ms :: m.event == ReinitDkg ==> m.round != round
    ensures NeverReplaced(c, store, ms, round)
    decreases |ms|
  {
    hide HandleEffect, Reborn;
    if ms != [] {
      assert ms[0] in ms;
      NotNamedNotReplaced(c, HandleEffect(c, store, ms[0]).store, ms[1..], round);
    }
  }

  // ---------------------------------------------------------------- messages that nobody signed

  lemma {:induction false} ReplayParts(ms: seq<Message>, name: string, clock: Message -> Time, round: string)
    requires forall m :: 0 < clock(m)
    ensures var ins := OfRound(InputsOf(Replayed(ms, name), clock, true), round);
            Clocked(ins) && NoReturn.NothingStarts(ins)
    decreases |ms|
  {
    hide Addressed;
    if ms != [] && ms[0].event != SigningStart {
      ReplayParts(ms[1..], name, clock, round);
      var rest := Replayed(ms[1..], name);
      assert ([ms[0]] + rest)[0] == ms[0] && ([ms[0]] + rest)[1..] == rest;
      var x, ins := Input(ms[0], clock(ms[0]), true), InputsOf(rest, clock, true);
      assert ([x] + ins)[0] == x && ([x] + ins)[1..] == ins;
    }
  }

  // A message of the old log that the node replays would by itself change the round.
  ghost predicate Smuggles(c: Setup, q: ReDkg, round: string, i: Inst) {
    var ins := OfRound(ReplayOf(c, q), round);
    exists k :: 0 <= k < |ins| && After(c.env, Some(i), ins[k]) != Some(i)
  }

  // Let a client check signatures, and let a message come that is not signed for a round that was
  // proposed: it names another, or is not signed with the key registered for its sender, or is a
  // reinitialisation, of which the client does not check the signature. It changes
  // the round if and only if it is a second proposal and the round is a failed signing, or it is a
  // reinitialisation that is carried out and either saves another dump there, or replays to the round
  // some message that would change it.
  lemma UnsignedAtClient(c: Setup, store: Store, m: Message, round: string)
    requires round in store && Inv(store[round]) && store[round].state != GlobalIdle
    requires !c.skip && (forall x :: 0 < c.clock(x))
    requires m.round == round && m.event != ReinitDkg ==> !Safety.SignedFor(store[round].payload, m)
    ensures var i, n := store[round], Lookup(HandleEffect(c, store, m).store, round);
            n != Some(i) <==>
              match Carried(c, store, m)
              case None => m.round == round && m.event == InitProposal && i.state == SigningCanceledByError
              case Some(q) =>
                if Replaces(c, store, m, round) then WithKeys(Reborn(c, q).inst, q.participants) != i
                else Smuggles(c, q, round, i)
  {
    hide HandleEffect, RoundRun, Inv, WithKeys, Reborn, Safety.SignedFor, After, ReplayOf;
    var i := store[round];
    HandledRound(c, store, m, round);
    FedReplay(c, store, m);
    var req := Carried(c, store, m);
    if req.None? {
      FedPlain(c, store, m, round);
      if m.round == round && m.event != ReinitDkg {
        Safety.UnsignedStep(c.env, i, Input(m, c.clock(m), false));
      }
    } else {
      ReplayClean(c, req.value, round);
      NoReturn.NeverReturns(c.env, i, OfRound(ReplayOf(c, req.value), round));
    }
  }

  lemma ReplayClean(c: Setup, q: ReDkg, round: string)
    requires forall x :: 0 < c.clock(x)
    ensures Clocked(OfRound(ReplayOf(c, q), round)) && NoReturn.NothingStarts(OfRound(ReplayOf(c, q), round))
  {
    hide Replayed, InputsOf, OfRound;
    ReplayParts(q.messages, c.name, c.clock, round);
  }

  // A message that carries no reinitialisation is heard by the round it names.
  lemma FedPlain(c: Setup, store: Store, m: Message, round: string)
    requires Carried(c, store, m).None?
    ensures RoundRun(c.env, Lookup(store, round), OfRound(FedBy(c, store, m), round))
            == if m.event != ReinitDkg && m.round == round
               then After(c.env, Lookup(store, round), Input(m, c.clock(m), c.skip))
               else Lookup(store, round)
  {
    hide After;
    var x := Input(m, c.clock(m), c.skip);
    assert [x][1..] == [] && [x] + [] == [x];
  }

  // ---------------------------------------------------------------- whole logs

  // The message brings up the round anew or saves another one there.
  ghost predicate Rekeys(c: Setup, store: Store, m: Message, round: string) {
    var req := Carried(c, store, m);
    req.Some? && (m.round == round || req.value.dkgId == round) && Reborn(c, req.value).Loaded?
  }

  ghost predicate NeverRekeyed(c: Setup, store: Store, ms: seq<Message>, round: string)
    decreases |ms|
  {
    ms == [] ||
    (!Rekeys(c, store, ms[0], round) && NeverRekeyed(c, HandleEffect(c, store, ms[0]).store, ms[1..], round))
  }

  // All that a round hears while a client handles messages.
  ghost function Hears(c: Setup, store: Store, ms: seq<Message>, round: string): seq<Input>
    decreases |ms|
  {
    if ms == [] then []
    else OfRound(FedBy(c, store, ms[0]), round) + Hears(c, HandleEffect(c, store, ms[0]).store, ms[1..], round)
  }

  // Rounds do not interfere at the client either, except by reinitialisations: a round that none of
  // them brings up or replaces is what the messages that name it, replayed ones included, make of it.
  lemma {:induction false} ClientRoundRuns(c: Setup, store: Store, ms: seq<Message>, round: string)
    requires NeverRekeyed(c, store, ms, round)
    ensures Lookup(EffectOf(c, store, ms).store, round)
            == RoundRun(c.env, Lookup(store, round), Hears(c, store, ms, round))
    decreases |ms|
  {
    hide HandleEffect, Inv, After, FedBy, Reborn, OfRound;
    if ms != [] {
      var next := HandleEffect(c, store, ms[0]).store;
      HandledRound(c, store, ms[0], round);
      ClientRoundRuns(c, next, ms[1..], round);
      Safety.RunSplits(c.env, Lookup(store, round), OfRound(FedBy(c, store, ms[0]), round),
                       Hears(c, next, ms[1..], round));
    }
  }

  // So at a client that started empty such a round holds exactly what the messages it accepted say.
  lemma RecordsAtClient(c: Setup, ms: seq<Message>, round: string)
    requires NeverRekeyed(c, map[], ms, round) && forall x :: 0 < c.clock(x)
    ensures var saved := Lookup(EffectOf(c, map[], ms).store, round);
            var h := History.FactsOf(c.env, None, Hears(c, map[], ms, round));
            if saved.None? then h == [] else History.Records(saved.value, h)
  {
    hide EffectOf, Hears, NeverRekeyed, RoundRun, History.FactsOf, History.Records;
    ClientRoundRuns(c, map[], ms, round);
    HearsClocked(c, map[], ms, round);
    Provenance.RunRecords(c.env, Hears(c, map[], ms, round));
  }

  // A round that is there is never brought up again.
  lemma {:induction false} ThereIsNotRekeyed(c: Setup, store: Store, ms: seq<Message>, round: string)
    requires round in store && NeverReplaced(c, store, ms, round)
    ensures NeverRekeyed(c, store, ms, round)
    decreases |ms|
  {
    hide HandleEffect, Reborn;
    if ms != [] {
      StaysThere(c, store, ms[0], round);
      ThereIsNotRekeyed(c, HandleEffect(c, store, ms[0]).store, ms[1..], round);
    }
  }

  lemma StaysThere(c: Setup, store: Store, m: Message, round: string)
    requires round in store
    ensures round in HandleEffect(c, store, m).store
  {
    hide HandleEffect, FedBy, RoundRun, Reborn, WithKeys;
    HandledRound(c, store, m, round);
    RunStays(c.env, store[round], OfRound(FedBy(c, store, m), round));
  }

  lemma {:induction false} RunStays(env: Env, i: Inst, ins: seq<Input>)
    ensures RoundRun(env, Some(i), ins).Some?
    decreases |ins|
  {
    hide After;
    if ins != [] {
      NeverForgets(env, Some(i), ins[0]);
      RunStays(env, After(env, Some(i), ins[0]).value, ins[1..]);
    }
  }

  // ---------------------------------------------------------------- accepted once

  // A message that a round accepted leaves it alone when it comes again, at any later point of any
  // log that does not replace the round; only a failed signing is restarted by it.
  lemma ReplayAtClient(c: Setup, store: Store, m: Message, ms: seq<Message>, again: Input)
    requires SavedInv(Lookup(store, m.round)) && (forall x :: 0 < c.clock(x)) && 0 < again.now && again.m == m
    requires Took(c.env, Lookup(store, m.round), Input(m, c.clock(m), c.skip))
    requires NeverReplaced(c, HandleEffect(c, store, m).store, ms, m.round)
    ensures var saved := Lookup(EffectOf(c, HandleEffect(c, store, m).store, ms).store, m.round);
            && saved.Some?
            && After(c.env, saved, again)
               == if saved.value.state == SigningCanceledByError && Gate(again.skip, saved.value.payload, again.m)
                  then Some(Inst(SigningIdle, saved.value.payload)) else saved
  {
    hide HandleEffect, EffectOf, RoundRun, Inv, After, Took, Gate, Hears, NeverReplaced, NeverRekeyed, Replay.Spent,
         Decode, FedBy;
    var x, next := Input(m, c.clock(m), c.skip), HandleEffect(c, store, m).store;
    HandledRound(c, store, m, m.round);
    Replay.TookCeremony(c.env, Lookup(store, m.round), x);
    FedPlain(c, store, m, m.round);
    Replay.TookSpends(c.env, Lookup(store, m.round), x);
    AfterKeeps(c.env, Lookup(store, m.round), x);
    ThereIsNotRekeyed(c, next, ms, m.round);
    ClientRoundRuns(c, next, ms, m.round);
    HearsClocked(c, next, ms, m.round);
    var heard := Hears(c, next, ms, m.round);
    Replay.RunKeepsSpent(c.env, Lookup(next, m.round), heard, m.event, Decode(m).value);
    RoundRunKeeps(c.env, Lookup(next, m.round), heard);
    Replay.SpentStep(c.env, RoundRun(c.env, Lookup(next, m.round), heard), again);
  }

  lemma FedClocked(c: Setup, store: Store, m: Message, round: string)
    requires forall x :: 0 < c.clock(x)
    ensures Clocked(OfRound(FedBy(c, store, m), round))
  {
    hide ReplayOf;
    var req := Carried(c, store, m);
    if req.Some? {
      ReplayClean(c, req.value, round);
    } else {
      OfRoundClocked(FedBy(c, store, m), round);
    }
  }

  lemma {:induction false} HearsClocked(c: Setup, store: Store, ms: seq<Message>, round: string)
    requires forall x :: 0 < c.clock(x)
    ensures Clocked(Hears(c, store, ms, round))
    decreases |ms|
  {
    hide HandleEffect, FedBy, OfRound;
    if ms != [] {
      FedClocked(c, store, ms[0], round);
      HearsClocked(c, HandleEffect(c, store, ms[0]).store, ms[1..], round);
    }
  }

  // ---------------------------------------------------------------- the length of a ceremony

  // How many events a round accepts while a client handles messages.
  ghost function ClientTally(c: Setup, store: Store, ms: seq<Message>, round: string): nat
    decreases |ms|
  {
    if ms == [] then 0
    else
      Tally(c.env, Lookup(store, round), OfRound(FedBy(c, store, ms[0]), round))
      + ClientTally(c, HandleEffect(c, store, ms[0]).store, ms[1..], round)
  }

  // Being brought up with new keys accepts nothing.
  lemma RebornCounted(c: Setup, q: ReDkg, k: nat)
    requires var heard := RoundRun(c.env, None, OfRound(ReplayOf(c, q), q.dkgId)); SavedInv(heard) && Counted(heard, k)
    requires Reborn(c, q).Loaded?
    ensures Counted(Some(Reborn(c, q).inst), k) && Counted(Some(WithKeys(Reborn(c, q).inst, q.participants)), k)
  {
    hide RoundRun, OfRound, ReplayOf, Inv, TrimSpace, Rekeyed;
  }

  lemma HandledCounted(c: Setup, store: Store, m: Message, round: string, k: nat)
    requires SavedInv(Lookup(store, round)) && Counted(Lookup(store, round), k) && (forall x :: 0 < c.clock(x))
    requires !Replaces(c, store, m, round)
    ensures Counted(Lookup(HandleEffect(c, store, m).store, round),
                    k + Tally(c.env, Lookup(store, round), OfRound(FedBy(c, store, m), round)))
  {
    hide HandleEffect, RoundRun, Inv, Counted, Tally, FedBy, OfRound, ReplayOf, Reborn, WithKeys;
    var heard := OfRound(FedBy(c, store, m), round);
    HandledRound(c, store, m, round);
    FedReplay(c, store, m);
    FedClocked(c, store, m, round);
    RunCounted(c.env, Lookup(store, round), heard, k);
    RoundRunKeeps(c.env, Lookup(store, round), heard);
    var req := Carried(c, store, m);
    if req.Some? && req.value.dkgId == round && Reborn(c, req.value).Loaded? {
      RebornCounted(c, req.value, k + Tally(c.env, Lookup(store, round), heard));
    }
  }

  lemma {:induction false} ClientCounted(c: Setup, store: Store, ms: seq<Message>, round: string, k: nat)
    requires StoreOk(store) && Counted(Lookup(store, round), k) && (forall x :: 0 < c.clock(x))
    requires NeverReplaced(c, store, ms, round)
    ensures Counted(Lookup(EffectOf(c, store, ms).store, round), k + ClientTally(c, store, ms, round))
    decreases |ms|
  {
    hide HandleEffect, Inv, Counted, Tally, FedBy, OfRound, Replaces;
    if ms != [] {
      HandledCounted(c, store, ms[0], round, k);
      HandlingOneKeeps(c, store, ms[0]);
      ClientCounted(c, HandleEffect(c, store, ms[0]).store, ms[1..], round,
                    k + Tally(c.env, Lookup(store, round), OfRound(FedBy(c, store, ms[0]), round)));
    }
  }

  // At a client that started empty, a round that is never replaced - it may have been brought up by a
  // reinitialisation - accepted at most 5N + 1 events, and exactly that many if it reached signing.
  lemma LengthAtClient(c: Setup, ms: seq<Message>, round: string)
    requires (forall x :: 0 < c.clock(x)) && NeverReplaced(c, map[], ms, round)
    requires var i := Lookup(EffectOf(c, map[], ms).store, round); i.Some? && i.value.state != GlobalIdle
    ensures var i, k := Lookup(EffectOf(c, map[], ms).store, round).value, ClientTally(c, map[], ms, round);
            && i.payload.sig.Some?
            && 1 <= k <= 5 * Size(i.payload) + 1
            && (InSigning(i.state) ==> k == 5 * Size(i.payload) + 1)
  {
    hide EffectOf, ClientTally, NeverReplaced, Inv;
    ClientCounted(c, map[], ms, round, 0);
    HandlingKeeps(c, map[], ms);
    DoneBounds(Lookup(EffectOf(c, map[], ms).store, round).value);
  }

  // At such a client no step dereferences a missing part of a payload or makes a move the tables do
  // not declare, and the states between two machines are never saved.
  lemma NeverCrashesAtClient(c: Setup, ms: seq<Message>, x: Input)
    requires (forall m :: 0 < c.clock(m)) && 0 < x.now
    ensures var store := EffectOf(c, map[], ms).store;
            var out := Step(c.env, x.skip, Lookup(store, x.m.round), x.m, x.now);
            && (out.err.Some? ==> out.err.value != NilDereference && out.err.value != UndeclaredTransition)
            && (forall round | round in store :: !Transient(store[round].state))
  {
    hide EffectOf, Inv, Step, StepEffect;
    HandlingKeeps(c, map[], ms);
    var store := EffectOf(c, map[], ms).store;
    StepOnBase(c.env, Lookup(store, x.m.round), x);
    forall round | round in store
      ensures !Transient(store[round].state)
    {
      Safety.StableStates(store[round]);
    }
  }

  // Every round in signing at such a client, replaced or not, has a complete and consistent DKG.
  lemma CompletionAtClient(c: Setup, ms: seq<Message>, round: string)
    requires (forall x :: 0 < c.clock(x)) && round in EffectOf(c, map[], ms).store
    requires InSigning(EffectOf(c, map[], ms).store[round].state)
    ensures Safety.Completed(EffectOf(c, map[], ms).store[round].payload)
  {
    hide EffectOf, Inv;
    HandlingKeeps(c, map[], ms);
    Safety.SigningFacts(EffectOf(c, map[], ms).store[round]);
  }
}
