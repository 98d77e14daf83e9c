/** Replaying an adapted log: every node takes one deal from each participant and moves on. */
module AdaptedReplay {
  import opened Names
  import opened Payloads
  import opened NodeStep
  import opened Mailbox
  import opened Adaptation
  import opened Ceremony
  import opened Moves
  import opened RoundInvariant
  import opened Reactions
  import opened Preservation
  import opened Steps
  import opened Runs
  import opened Confluence
  import opened Delivery
  import Progress
  import Replay
  import Safety
  import D = DkgActions

  // ---------------------------------------------------------------- every participant dealt to every other

  // A deal of the round from participant i to participant j.
  predicate DealFrom(m: Message, names: seq<string>, round: string, i: int, j: int) {
    && 0 <= i < |names| && 0 <= j < |names| && i != j
    && IsDeal(m) && m.round == round && m.data.pid == i && m.sender == names[i] && m.recipient == names[j]
  }

  ghost predicate DistinctNames(names: seq<string>) {
    && (forall i | 0 <= i < |names| :: names[i] != "")
    && (forall i, j | 0 <= i < j < |names| :: names[i] != names[j])
  }

  ghost predicate IsDealing(ms: seq<Message>, names: seq<string>, round: string, k: int) {
    0 <= k < |ms| && exists i, j :: DealFrom(ms[k], names, round, i, j)
  }

  ghost predicate Dealt(ms: seq<Message>, names: seq<string>, round: string, i: int, j: int) {
    exists k :: 0 <= k < |ms| && DealFrom(ms[k], names, round, i, j)
  }

  predicate IsDealOf(m: Message, round: string) {
    IsDealEvent(m) && m.round == round
  }

  // The deals of a round in an old log: one for each ordered pair, in any order, among any other
  // messages, deals of other rounds included, and all before the first signing.
  ghost predicate FullDealing(ms: seq<Message>, names: seq<string>, round: string) {
    && DistinctNames(names) && 2 <= |names|
    && (forall k | 0 <= k < |ms| && IsDealOf(ms[k], round) :: IsDealing(ms, names, round, k))
    && (forall i, j | 0 <= i < |names| && 0 <= j < |names| && i != j :: Dealt(ms, names, round, i, j))
    && (forall k, l, i, j | 0 <= k < l < |ms| && DealFrom(ms[k], names, round, i, j) ::
          !DealFrom(ms[l], names, round, i, j))
    && (forall k, l | 0 <= k < l < |ms| && IsDealOf(ms[l], round) :: ms[k].event != SigningStart)
  }

  // The first deal a participant sent, in whatever round, is of this round.
  ghost predicate DealsHereFirst(ms: seq<Message>, name: string, round: string) {
    exists k :: 0 <= k < |ms| && FirstDeal(ms, k) && ms[k].sender == name && ms[k].round == round
  }

  // The participants of which a node finds a deal in the adapted log: the others, and itself if the
  // adaptation made its self-confirmation from a deal of this round.
  ghost function Givers(ms: seq<Message>, names: seq<string>, round: string, me: nat): set<int>
    requires me < |names|
  {
    if DealsHereFirst(ms, names[me], round) then Range(|names|) else Range(|names|) - {me}
  }

  // The adaptation fails on no deal of the round.
  lemma FullDealingAdapts(ms: seq<Message>, names: seq<string>, round: string)
    requires FullDealing(ms, names, round)
    ensures Adaptable(ms) <==> forall k | 0 <= k < |ms| && FirstDeal(ms, k) && ms[k].round != round :: IsDeal(ms[k])
  {
    hide FirstDeal;
    forall k | 0 <= k < |ms| && FirstDeal(ms, k) && ms[k].round == round
      ensures IsDeal(ms[k])
    {
      FirstIsDeal(ms, k);
      assert IsDealing(ms, names, round, k);
    }
  }

  lemma FirstIsDeal(ms: seq<Message>, k: nat)
    requires FirstDeal(ms, k)
    ensures k < |ms| && IsDealEvent(ms[k])
  {
  }

  lemma OneFirst(ms: seq<Message>, j: nat, l: nat)
    requires FirstDeal(ms, j) && FirstDeal(ms, l)
    ensures ms[j].sender == ms[l].sender ==> j == l
  {
  }

  // ---------------------------------------------------------------- the deals of the adapted log

  // A deal at a position of the adapted log is an old one or was made from an old one.
  lemma DealOrigin(ms: seq<Message>, names: seq<string>, round: string, ids: nat -> string, out: seq<Message>, x: nat)
    returns (j: nat, kept: bool)
    requires FullDealing(ms, names, round) && Adapts(ms, ids, |ms|, out) && x < |out| && IsDealOf(out[x], round)
    ensures j < |ms| && IsDealing(ms, names, round, j) && IsDeal(ms[j]) && ComesFrom(ms, x, j)
    ensures kept <==> x == Position(ms, j)
    ensures kept ==> out[x] == ms[j].(offset := x)
    ensures !kept ==> FirstDeal(ms, j) && x == Position(ms, j) - 1 && out[x] == SelfConfirm(ms[j], ids(j)).(offset := x)
  {
    hide FirstDeal, Position, Firsts;
    assert Explained(ms, |ms|, x);
    j :| 0 <= j < |ms| && ComesFrom(ms, x, j);
    kept := x == Position(ms, j);
    if kept {
      assert out[x] == ms[j].(offset := x);
    } else {
      FirstIsDeal(ms, j);
      assert out[x] == SelfConfirm(ms[j], ids(j)).(offset := x);
    }
    assert IsDealing(ms, names, round, j);
  }

  // What a node finds at the position of a deal for it: another participant's deal, or its own
  // self-confirmation.
  lemma Classify(ms: seq<Message>, names: seq<string>, round: string, ids: nat -> string, out: seq<Message>, x: nat,
                 me: nat) returns (j: nat, kept: bool)
    requires FullDealing(ms, names, round) && Adapts(ms, ids, |ms|, out) && me < |names|
    requires x < |out| && IsDealOf(out[x], round) && Addressed(out[x], names[me])
    ensures j < |ms| && IsDeal(out[x]) && IsDeal(ms[j]) && out[x].data.createdAt == ms[j].data.createdAt
    ensures out[x].data.content == SELF_CONFIRM || out[x].data == ms[j].data
    ensures ms[j].round == round
    ensures kept ==> x == Position(ms, j) && DealFrom(ms[j], names, round, out[x].data.pid, me)
    ensures !kept ==> x == Position(ms, j) - 1 && FirstDeal(ms, j) && ms[j].sender == names[me] && out[x].data.pid == me
  {
    hide FirstDeal, Position, Firsts, Adapts;
    j, kept := DealOrigin(ms, names, round, ids, out, x);
    var a, b :| DealFrom(ms[j], names, round, a, b);
  }

  // No two deals for a node come from the same participant.
  lemma OneEach(ms: seq<Message>, names: seq<string>, round: string, ids: nat -> string, out: seq<Message>,
                x: nat, y: nat, me: nat)
    requires FullDealing(ms, names, round) && Adapts(ms, ids, |ms|, out) && me < |names| && x < y < |out|
    requires IsDealOf(out[x], round) && Addressed(out[x], names[me])
    requires IsDealOf(out[y], round) && Addressed(out[y], names[me])
    ensures IsDeal(out[x]) && IsDeal(out[y]) && out[x].data.pid != out[y].data.pid
  {
    hide Adapts, FirstDeal, Position, Firsts, Addressed;
    var j, keptX := Classify(ms, names, round, ids, out, x, me);
    var l, keptY := Classify(ms, names, round, ids, out, y, me);
    if !keptX && !keptY {
      OneFirst(ms, j, l);
    }
  }

  lemma FromOther(ms: seq<Message>, names: seq<string>, round: string, out: seq<Message>, me: nat, i: nat)
    returns (x: nat)
    requires FullDealing(ms, names, round) && KeepsOld(ms, |ms|, out) && me < |names| && i < |names| && i != me
    ensures x < |out| && IsDealOf(out[x], round) && Addressed(out[x], names[me])
    ensures IsDeal(out[x]) && out[x].data.pid == i
  {
    hide Position;
    assert Dealt(ms, names, round, i, me);
    var k :| 0 <= k < |ms| && DealFrom(ms[k], names, round, i, me);
    x := Position(ms, k);
    assert out[x] == ms[k].(offset := x);
  }

  lemma FromMe(ms: seq<Message>, names: seq<string>, round: string, ids: nat -> string, out: seq<Message>, me: nat)
    returns (x: nat)
    requires FullDealing(ms, names, round) && AddsNew(ms, ids, |ms|, out) && me < |names|
    requires DealsHereFirst(ms, names[me], round)
    ensures x < |out| && IsDealOf(out[x], round) && Addressed(out[x], names[me])
    ensures IsDeal(out[x]) && out[x].data.pid == me
  {
    hide Position, FirstDeal;
    var f :| 0 <= f < |ms| && FirstDeal(ms, f) && ms[f].sender == names[me] && ms[f].round == round;
    x := Position(ms, f) - 1;
    FirstIsDeal(ms, f);
    SenderPid(ms, names, round, f, me);
    assert out[x] == SelfConfirm(ms[f], ids(f)).(offset := x);
  }

  lemma SenderPid(ms: seq<Message>, names: seq<string>, round: string, k: nat, me: nat)
    requires FullDealing(ms, names, round) && k < |ms| && me < |names|
    requires ms[k].sender == names[me] && IsDealOf(ms[k], round)
    ensures IsDeal(ms[k]) && ms[k].data.pid == me
  {
    assert IsDealing(ms, names, round, k);
  }

  // From every giver there is one.
  lemma FromAll(ms: seq<Message>, names: seq<string>, round: string, ids: nat -> string, out: seq<Message>,
                me: nat, i: nat) returns (x: nat)
    requires FullDealing(ms, names, round) && Adapts(ms, ids, |ms|, out) && me < |names|
    requires i in Givers(ms, names, round, me)
    ensures x < |out| && IsDealOf(out[x], round) && Addressed(out[x], names[me])
    ensures IsDeal(out[x]) && out[x].data.pid == i
  {
    hide FullDealing, KeepsOld, AddsNew, Addressed, DealsHereFirst;
    if i != me {
      x := FromOther(ms, names, round, out, me, i);
    } else {
      x := FromMe(ms, names, round, ids, out, me);
    }
  }

  // No signing starts before a deal of the round.
  ghost predicate DealsFirst(log: seq<Message>, round: string) {
    forall x, y | 0 <= y < x < |log| && IsDealOf(log[x], round) :: log[y].event != SigningStart
  }

  lemma AdaptedDealsFirst(ms: seq<Message>, names: seq<string>, round: string, ids: nat -> string, out: seq<Message>)
    requires FullDealing(ms, names, round) && Adapts(ms, ids, |ms|, out)
    ensures DealsFirst(out, round)
  {
    hide Adapts, FullDealing;
    forall x, y | 0 <= y < x < |out| && IsDealOf(out[x], round)
      ensures out[y].event != SigningStart
    {
      NoStartBefore(ms, names, round, ids, out, x, y);
    }
  }

  lemma NoStartBefore(ms: seq<Message>, names: seq<string>, round: string, ids: nat -> string, out: seq<Message>,
                      x: nat, y: nat)
    requires FullDealing(ms, names, round) && Adapts(ms, ids, |ms|, out) && y < x < |out| && IsDealOf(out[x], round)
    ensures out[y].event != SigningStart
  {
    hide FirstDeal, Position, Firsts, IsDealing, Dealt, Adapts, FullDealing;
    var l, kept := DealOrigin(ms, names, round, ids, out, x);
    var j, copied := Origin(ms, ids, out, y);
    if copied {
      if l < j {
        PositionsGrow(ms, l, j);
      }
      NoStartBeforeOld(ms, names, round, j, l);
    }
  }

  // What stands at a position of the adapted log.
  lemma Origin(ms: seq<Message>, ids: nat -> string, out: seq<Message>, y: nat) returns (j: nat, copied: bool)
    requires Adapts(ms, ids, |ms|, out) && y < |out|
    ensures j < |ms| && (copied ==> y == Position(ms, j) && out[y].event == ms[j].event)
    ensures !copied ==> out[y].event == DkgConfirm(Deals)
  {
    hide FirstDeal, Position, Firsts;
    assert Explained(ms, |ms|, y);
    j :| 0 <= j < |ms| && ComesFrom(ms, y, j);
    copied := y == Position(ms, j);
    if copied {
      assert out[y] == ms[j].(offset := y);
    } else {
      FirstIsDeal(ms, j);
      assert out[y] == SelfConfirm(ms[j], ids(j)).(offset := y);
    }
  }

  lemma NoStartBeforeOld(ms: seq<Message>, names: seq<string>, round: string, j: nat, l: nat)
    requires FullDealing(ms, names, round) && j <= l < |ms| && IsDealing(ms, names, round, l)
    ensures ms[j].event != SigningStart
  {
  }

  // ---------------------------------------------------------------- the deals among a node's inputs

  predicate DealtTo(m: Message, name: string, round: string) {
    IsDealOf(m, round) && Addressed(m, name)
  }

  // The deals of a round in a log that are for a node, in log order.
  function Dealing(log: seq<Message>, name: string, round: string): seq<Message> {
    if log == [] then []
    else
      var n := |log| - 1;
      Dealing(log[..n], name, round) + if DealtTo(log[n], name, round) then [log[n]] else []
  }

  // The deals among the inputs of a round.
  ghost function DealsIn(ins: seq<Input>): seq<Message> {
    if ins == [] then [] else (if IsDealEvent(ins[0].m) then [ins[0].m] else []) + DealsIn(ins[1..])
  }

  lemma {:induction false} DealsInConcat(a: seq<Input>, b: seq<Input>)
    ensures DealsIn(a + b) == DealsIn(a) + DealsIn(b)
    decreases |a|
  {
    if a == [] {
      assert a + b == b;
    } else {
      assert (a + b)[0] == a[0] && (a + b)[1..] == a[1..] + b;
      DealsInConcat(a[1..], b);
    }
  }

  lemma {:induction false} NoDealsIn(ins: seq<Input>)
    ensures DealsIn(ins) == [] <==> forall k | 0 <= k < |ins| :: !IsDealEvent(ins[k].m)
    decreases |ins|
  {
    if ins != [] {
      NoDealsIn(ins[1..]);
      assert forall k | 1 <= k < |ins| :: ins[k] == ins[1..][k - 1];
    }
  }

  // What a node of a round is given by a replay.
  ghost function ReplayInputs(log: seq<Message>, name: string, round: string, clock: Message -> Time): seq<Input> {
    OfRound(InputsOf(Replayed(log, name), clock, true), round)
  }

  lemma {:induction false} DealingCons(log: seq<Message>, name: string, round: string)
    requires log != []
    ensures Dealing(log, name, round)
            == (if DealtTo(log[0], name, round) then [log[0]] else []) + Dealing(log[1..], name, round)
    decreases |log|
  {
    hide DealtTo;
    var n := |log| - 1;
    if n > 0 {
      DealingCons(log[..n], name, round);
      assert log[..n][1..] == log[1..][..n - 1] && log[1..][n - 1] == log[n];
    } else {
      assert log[..0] == [] && log[1..] == [];
    }
  }

  lemma {:induction false} NoneDealing(log: seq<Message>, name: string, round: string)
    requires forall k | 0 <= k < |log| :: !IsDealOf(log[k], round)
    ensures Dealing(log, name, round) == []
    decreases |log|
  {
    if log != [] {
      NoneDealing(log[..|log| - 1], name, round);
    }
  }

  // The replay hands a node all the deals for it.
  lemma {:induction false} ReplayHasDeals(log: seq<Message>, name: string, round: string, clock: Message -> Time)
    requires DealsFirst(log, round)
    ensures DealsIn(ReplayInputs(log, name, round, clock)) == Dealing(log, name, round)
    decreases |log|
  {
    hide Addressed;
    if log != [] {
      var m, rest := log[0], log[1..];
      assert forall x | 0 <= x < |rest| :: rest[x] == log[x + 1];
      DealingCons(log, name, round);
      if m.event == SigningStart {
        NoneDealing(rest, name, round);
      } else {
        ReplayHasDeals(rest, name, round, clock);
        ReplayCons(log, name, round, clock);
      }
    }
  }

  lemma ReplayCons(log: seq<Message>, name: string, round: string, clock: Message -> Time)
    requires log != [] && log[0].event != SigningStart
    ensures ReplayInputs(log, name, round, clock) ==
            (if Addressed(log[0], name) && log[0].round == round then [Input(log[0], clock(log[0]), true)] else [])
            + ReplayInputs(log[1..], name, round, clock)
  {
    hide Addressed;
    var m, r := log[0], Replayed(log[1..], name);
    if Addressed(m, name) {
      assert ([m] + r)[0] == m && ([m] + r)[1..] == r;
      var x, ins := Input(m, clock(m), true), InputsOf(r, clock, true);
      assert ([x] + ins)[0] == x && ([x] + ins)[1..] == ins;
    }
  }

  lemma {:induction false} ReplaySkips(log: seq<Message>, name: string, round: string, clock: Message -> Time)
    ensures forall k | 0 <= k < |ReplayInputs(log, name, round, clock)| ::
              var x := ReplayInputs(log, name, round, clock)[k]; x.skip && x.now == clock(x.m)
    decreases |log|
  {
    hide ReplayInputs, Addressed;
    if log != [] && log[0].event != SigningStart {
      ReplaySkips(log[1..], name, round, clock);
      ReplayCons(log, name, round, clock);
    } else {
      NothingReplayed(log, name, round, clock);
    }
  }

  lemma NothingReplayed(log: seq<Message>, name: string, round: string, clock: Message -> Time)
    requires log == [] || log[0].event == SigningStart
    ensures ReplayInputs(log, name, round, clock) == []
  {
  }

  // The positions of the deals for a node.
  function DealingAt(log: seq<Message>, name: string, round: string): seq<nat> {
    if log == [] then []
    else
      var n := |log| - 1;
      DealingAt(log[..n], name, round) + if DealtTo(log[n], name, round) then [n] else []
  }

  lemma {:induction false} DealingAtIs(log: seq<Message>, name: string, round: string)
    ensures var at, mine := DealingAt(log, name, round), Dealing(log, name, round);
            && |at| == |mine|
            && (forall k | 0 <= k < |at| ::
                  at[k] < |log| && DealtTo(log[at[k]], name, round) && mine[k] == log[at[k]])
            && (forall j, k | 0 <= j < k < |at| :: at[j] < at[k])
            && (forall x | 0 <= x < |log| && DealtTo(log[x], name, round) :: x in at)
    decreases |log|
  {
    hide DealtTo;
    if log != [] {
      var n := |log| - 1;
      DealingAtIs(log[..n], name, round);
      assert forall x | 0 <= x < n :: log[..n][x] == log[x];
    }
  }

  // ---------------------------------------------------------------- one deal from each

  ghost function Requests(ms: seq<Message>): seq<Request> {
    seq(|ms|, k requires 0 <= k < |ms| => ms[k].data)
  }

  // Valid deals, one from each of some participants.
  ghost predicate OneFromEach(mine: seq<Message>, givers: set<int>) {
    && (forall k | 0 <= k < |mine| :: IsDeal(mine[k]))
    && Distinct(Requests(mine)) && Pids(Requests(mine)) == givers
  }

  lemma DealingIsOneFromEach(ms: seq<Message>, names: seq<string>, round: string, ids: nat -> string,
                             out: seq<Message>, me: nat)
    requires FullDealing(ms, names, round) && Adapts(ms, ids, |ms|, out) && me < |names|
    ensures OneFromEach(Dealing(out, names[me], round), Givers(ms, names, round, me))
  {
    hide FullDealing, Adapts, Addressed, Dealing, DealingAt, DealsHereFirst, FirstDeal;
    var mine, at := Dealing(out, names[me], round), DealingAt(out, names[me], round);
    DealingAtIs(out, names[me], round);
    forall k | 0 <= k < |mine|
      ensures IsDeal(mine[k]) && mine[k].data.pid in Givers(ms, names, round, me)
    {
      PidGives(ms, names, round, ids, out, me, at[k]);
    }
    var rs := Requests(mine);
    forall j, k | 0 <= j < k < |rs|
      ensures rs[j].pid != rs[k].pid
    {
      OneEach(ms, names, round, ids, out, at[j], at[k], me);
    }
    hide Givers;
    forall i | i in Givers(ms, names, round, me)
      ensures i in Pids(rs)
    {
      var k := GiverDeals(ms, names, round, ids, out, me, i);
      assert rs[k].pid == i;
    }
  }

  lemma GiverDeals(ms: seq<Message>, names: seq<string>, round: string, ids: nat -> string, out: seq<Message>,
                   me: nat, i: int) returns (k: nat)
    requires FullDealing(ms, names, round) && Adapts(ms, ids, |ms|, out) && me < |names|
    requires i in Givers(ms, names, round, me)
    ensures var mine := Dealing(out, names[me], round); k < |mine| && IsDeal(mine[k]) && mine[k].data.pid == i
  {
    hide FullDealing, Adapts, Addressed, Dealing, DealingAt;
    var mine, at := Dealing(out, names[me], round), DealingAt(out, names[me], round);
    DealingAtIs(out, names[me], round);
    GiversAreNamed(ms, names, round, me, i);
    var x := FromAll(ms, names, round, ids, out, me, i);
    k :| 0 <= k < |at| && at[k] == x;
  }

  lemma GiversAreNamed(ms: seq<Message>, names: seq<string>, round: string, me: nat, i: int)
    requires me < |names| && i in Givers(ms, names, round, me)
    ensures 0 <= i < |names|
  {
    hide DealsHereFirst;
  }

  lemma PidGives(ms: seq<Message>, names: seq<string>, round: string, ids: nat -> string, out: seq<Message>,
                 me: nat, x: nat)
    requires FullDealing(ms, names, round) && Adapts(ms, ids, |ms|, out) && me < |names|
    requires x < |out| && DealtTo(out[x], names[me], round)
    ensures IsDeal(out[x]) && out[x].data.pid in Givers(ms, names, round, me)
  {
    hide FullDealing, Adapts, Addressed, FirstDeal, Position, Firsts;
    var j, kept := Classify(ms, names, round, ids, out, x, me);
  }

  lemma {:induction false} DistinctCount(rs: seq<Request>)
    requires (forall k | 0 <= k < |rs| :: rs[k].ConfirmationRequest?) && Distinct(rs)
    ensures |Pids(rs)| == |rs|
    decreases |rs|
  {
    if rs != [] {
      var n := |rs| - 1;
      var rest := rs[..n];
      DistinctCount(rest);
      assert Pids(rs) == Pids(rest) + {rs[n].pid} by {
        assert forall k | 0 <= k < n :: rs[k] == rest[k];
      }
      assert rs[n].pid !in Pids(rest);
    }
  }

  lemma AsMany(mine: seq<Message>, givers: set<int>)
    requires OneFromEach(mine, givers)
    ensures |mine| == |givers| && forall k | 0 <= k < |mine| :: IsDeal(mine[k])
  {
    hide Distinct, Pids;
    DistinctCount(Requests(mine));
  }

  // ---------------------------------------------------------------- what a node makes of them

  // A step of a replay on a running stage is the machine hearing the deal.
  lemma StepHears(env: Env, i: Inst, m: Message, now: Time)
    requires i.state.DkgAwait? && IsDeal(m)
    ensures After(env, Some(i), Input(m, now, true)) == Some(Hear(Deals, i, m.data))
  {
    hide Step, Do, Confirm, Fail;
    StepRuns(env, true, i, m, now);
    if i.state.stage == Deals {
      DoConfirm(Deals, i.payload, m.data);
      ConfirmStays(i.payload, m.data);
    } else {
      NoRowElsewhere(i.state, i.payload, m, m.data);
    }
  }

  lemma ConfirmStays(p: Payload, r: Request)
    ensures var res := Confirm(Deals, p, r);
            res.Moved? ==> res.state != MasterKeyCollected && res.state != SigningCollected
  {
    hide D.Receive;
  }

  // While a round awaits deals, a message that is neither a deal nor an accepted error report
  // leaves it as it is.
  lemma OthersChangeNothing(env: Env, i: Inst, x: Input)
    requires Inv(i) && i.state == DkgAwait(Deals) && 0 < x.now && !IsDealEvent(x.m)
    requires After(env, Some(i), x).Some? ==> After(env, Some(i), x).value.state != DkgCanceledByError(Deals)
    ensures After(env, Some(i), x) == Some(i)
  {
    hide Step, Inv, Gate, CanConfirm, CanFail, Fail, Decode, SameRoster, StageOpen, SigningReady, SigningOpen;
    StepSays(env, x.skip, i, x.m, x.now);
    Parts(i);
    if Decode(x.m).Some? {
      FailSays(Deals, i.payload, Decode(x.m).value);
    }
  }

  // In particular an answer to a later stage is lost: it is refused, and nobody counts as having
  // given it when the round gets there.
  lemma EarlyAnswerIsLost(env: Env, i: Inst, x: Input, stage: Stage)
    requires Inv(i) && i.state == DkgAwait(Deals) && 0 < x.now && stage != Deals && x.m.event == DkgConfirm(stage)
    requires Gate(x.skip, i.payload, x.m)
    ensures After(env, Some(i), x) == Some(i)
    ensures Step(env, x.skip, Some(i), x.m, x.now).err == Some(NoRoute)
  {
    hide Step, Inv, Do, AnyDkgError;
    StepRuns(env, x.skip, i, x.m, x.now);
  }

  // No step of a run accepts an error report of the deal stage.
  ghost predicate NoReport(env: Env, saved: Option<Inst>, ins: seq<Input>)
    decreases |ins|
  {
    ins == [] ||
    (var n := After(env, saved, ins[0]);
     (n.Some? ==> n.value.state != DkgCanceledByError(Deals)) && NoReport(env, n, ins[1..]))
  }

  // Replayed inputs that end with a deal, or nothing.
  ghost predicate EndsInDeal(ins: seq<Input>) {
    && (forall k | 0 <= k < |ins| :: ins[k].skip && 0 < ins[k].now && (IsDealEvent(ins[k].m) ==> IsDeal(ins[k].m)))
    && (ins != [] ==> IsDealEvent(ins[|ins| - 1].m))
  }

  lemma EndsTail(ins: seq<Input>)
    requires EndsInDeal(ins) && ins != []
    ensures EndsInDeal(ins[1..])
    ensures ins[1..] != [] ==> DealsIn(ins[1..]) != []
    ensures forall k | 0 <= k < |DealsIn(ins)| :: IsDeal(DealsIn(ins)[k])
  {
    var rest := ins[1..];
    assert forall k | 0 <= k < |rest| :: rest[k] == ins[k + 1];
    NoDealsIn(rest);
    DealsAreDeals(ins);
    if rest != [] {
      assert IsDealEvent(rest[|rest| - 1].m);
    }
  }

  lemma {:induction false} DealsAreDeals(ins: seq<Input>)
    requires forall k | 0 <= k < |ins| :: IsDealEvent(ins[k].m) ==> IsDeal(ins[k].m)
    ensures forall k | 0 <= k < |DealsIn(ins)| :: IsDeal(DealsIn(ins)[k])
    decreases |ins|
  {
    if ins != [] {
      DealsAreDeals(ins[1..]);
    }
  }

  lemma NoRequests()
    ensures DealsIn([]) == [] && Requests([]) == []
  {
  }

  lemma FirstDealOf(ins: seq<Input>)
    requires ins != []
    ensures IsDealEvent(ins[0].m) ==> DealsIn(ins) == [ins[0].m] + DealsIn(ins[1..])
    ensures IsDealEvent(ins[0].m) ==> Requests(DealsIn(ins))[0] == ins[0].m.data
    ensures IsDealEvent(ins[0].m) ==> Requests(DealsIn(ins))[1..] == Requests(DealsIn(ins[1..]))
    ensures !IsDealEvent(ins[0].m) ==> DealsIn(ins) == DealsIn(ins[1..])
    ensures |Requests(DealsIn(ins))| == |DealsIn(ins)|
  {
    var rest := DealsIn(ins[1..]);
    hide DealsIn, IsDealEvent;
    FirstRequest(ins[0].m, rest);
  }

  lemma FirstRequest(m: Message, rest: seq<Message>)
    ensures Requests([m] + rest)[0] == m.data && Requests([m] + rest)[1..] == Requests(rest)
  {
  }

  // A round awaits the deals among some inputs, the last of which is a deal.
  ghost predicate Awaits(env: Env, p: Payload, mid: seq<Input>) {
    && Inv(Inst(DkgAwait(Deals), p)) && p.dkg.Some? && StageOpen(p, Deals) && EndsInDeal(mid)
    && Fresh(Deals, p, Requests(DealsIn(mid))) && NoReport(env, Some(Inst(DkgAwait(Deals), p)), mid)
  }

  lemma AwaitsDeal(env: Env, p: Payload, mid: seq<Input>)
    requires Awaits(env, p, mid) && mid != [] && IsDealEvent(mid[0].m)
    ensures var rs := Requests(DealsIn(mid));
            && rs != [] && rs[1..] == Requests(DealsIn(mid[1..]))
            && After(env, Some(Inst(DkgAwait(Deals), p)), mid[0]) == Some(Hear(Deals, Inst(DkgAwait(Deals), p), rs[0]))
            && (mid[1..] == [] ==> rs[1..] == [])
            && (mid[1..] != [] ==>
                  && Hear(Deals, Inst(DkgAwait(Deals), p), rs[0]).state == DkgAwait(Deals)
                  && Awaits(env, Hear(Deals, Inst(DkgAwait(Deals), p), rs[0]).payload, mid[1..]))
  {
    hide Inv, After, StageOpen, Hear, Fresh, EndsInDeal, Requests, DealsIn, D.Stored;
    var i, x := Inst(DkgAwait(Deals), p), mid[0];
    NoRequests();
    EndsTail(mid);
    FirstDealOf(mid);
    InputParts(mid);
    StepHears(env, i, x.m, x.now);
    if mid[1..] != [] {
      HearsOn(p, Requests(DealsIn(mid)));
      AfterKeeps(env, Some(i), x);
    }
  }

  lemma AwaitsOther(env: Env, p: Payload, mid: seq<Input>)
    requires Awaits(env, p, mid) && mid != [] && !IsDealEvent(mid[0].m)
    ensures After(env, Some(Inst(DkgAwait(Deals), p)), mid[0]) == Some(Inst(DkgAwait(Deals), p))
    ensures Awaits(env, p, mid[1..]) && DealsIn(mid) == DealsIn(mid[1..])
  {
    hide Inv, After, StageOpen, Fresh, EndsInDeal, Requests, DealsIn;
    EndsTail(mid);
    FirstDealOf(mid);
    InputParts(mid);
    OthersChangeNothing(env, Inst(DkgAwait(Deals), p), mid[0]);
  }

  // Deals heard among other messages are collected as if they came alone.
  lemma {:induction false} ReplayCollects(env: Env, p: Payload, mid: seq<Input>)
    requires Awaits(env, p, mid)
    ensures RoundRun(env, Some(Inst(DkgAwait(Deals), p)), mid)
            == Some(Collect(Deals, Inst(DkgAwait(Deals), p), Requests(DealsIn(mid))))
    decreases |mid|
  {
    hide After, Hear, Awaits, Requests, DealsIn;
    NoRequests();
    if mid != [] {
      if IsDealEvent(mid[0].m) {
        AwaitsDeal(env, p, mid);
        if mid[1..] != [] {
          ReplayCollects(env, Hear(Deals, Inst(DkgAwait(Deals), p), Requests(DealsIn(mid))[0]).payload, mid[1..]);
        }
      } else {
        AwaitsOther(env, p, mid);
        ReplayCollects(env, p, mid[1..]);
      }
    }
  }

  lemma InputParts(ins: seq<Input>)
    requires EndsInDeal(ins) && ins != []
    ensures ins[0] == Input(ins[0].m, ins[0].now, true) && 0 < ins[0].now
    ensures IsDealEvent(ins[0].m) ==> IsDeal(ins[0].m)
  {
  }

  // A deal that is not the last one leaves the round in the stage.
  lemma HearsOn(p: Payload, rs: seq<Request>)
    requires p.dkg.Some? && StageOpen(p, Deals) && Fresh(Deals, p, rs) && 1 < |rs|
    ensures Hear(Deals, Inst(DkgAwait(Deals), p), rs[0]) == Inst(DkgAwait(Deals), D.Stored(p, rs[0]))
    ensures StageOpen(D.Stored(p, rs[0]), Deals) && Fresh(Deals, D.Stored(p, rs[0]), rs[1..])
    ensures D.Stored(p, rs[0]).dkg.Some?
  {
    hide StageOpen, Hear, D.Stored, D.Restatused, D.KeysDiffer, Put, Valid, D.Collected, D.Mismatched, Distinct;
    var r := rs[0];
    HearOne(Deals, p, r);
    FreshTail(Deals, p, rs);
    PidsTail(rs);
    PidsWait(Deals, p, rs);
    assert rs[1].pid in Pids(rs) by {
      assert rs[1] in rs;
    }
    assert rs[1..][0].pid in Pids(rs[1..]);
    StayOpen(Deals, p, r);
  }

  // ---------------------------------------------------------------- the stage opens with everybody awaited

  // If the round awaits deals, nobody has given one.
  ghost predicate Untouched(saved: Option<Inst>) {
    saved.Some? && saved.value.state == DkgAwait(Deals) ==>
      saved.value.payload.dkg.Some?
      && Waiting(saved.value.payload.dkg.value.quorum, Deals) == saved.value.payload.dkg.value.quorum.Keys
  }

  lemma RestatusedWaits(q: DkgQuorum)
    ensures Waiting(D.Restatused(q, Awaiting(Deals)), Deals) == q.Keys
  {
  }

  lemma ConfirmOpensDeals(stage: Stage, p: Payload, r: Request, now: Time)
    requires p.dkg.Some? && CanConfirm(stage, p, r) && stage != Deals
    ensures Untouched(Some(Landed(Concluded(ConfirmOutcome(stage, p, r), now))))
  {
    hide ConfirmOutcome, Valid, Waiting, D.Stored, D.Restatused;
    Progress.OutcomeQuorum(stage, p, r);
    RestatusedWaits(D.Stored(p, r).dkg.value.quorum);
  }

  lemma ResultUntouched(i: Inst, e: Event, r: Request, now: Time)
    requires Inv(i) && Takes(i, e, r) && Result(i, e, r, now).Moved? && e != DkgConfirm(Deals)
    ensures Untouched(Some(Landed(Result(i, e, r, now))))
  {
    hide Inv, SigningReady, SigningOpen, StageOpen, SameRoster, CanReply, TooLate, CanConfirm, CanFail, CanSign,
         CanStart, Valid, Propose, Respond, ConfirmOutcome, Fail, Concluded, SignOutcome, Started, Asked, Opened,
         Invited, Waiting;
    Parts(i);
    match i.state
    case GlobalIdle =>
    case AwaitParticipants =>
    case DkgAwait(stage) => DkgUntouched(i, stage, e, r, now);
    case SigningIdle =>
    case SigningAwait => SignLeavesDkg(i.payload, e, r);
  }

  lemma DkgUntouched(i: Inst, stage: Stage, e: Event, r: Request, now: Time)
    requires Inv(i) && i.state == DkgAwait(stage) && Takes(i, e, r) && Result(i, e, r, now).Moved?
    requires e != DkgConfirm(Deals)
    ensures Untouched(Some(Landed(Result(i, e, r, now))))
  {
    hide Inv, SameRoster, StageOpen, CanConfirm, CanFail, ConfirmOutcome, Fail, Concluded, Untouched;
    Parts(i);
    if e == DkgConfirm(stage) {
      ConfirmOpensDeals(stage, i.payload, r, now);
    } else {
      FailSays(stage, i.payload, r);
      FailedUntouched(i.payload, stage, r);
    }
  }

  lemma FailedUntouched(p: Payload, stage: Stage, r: Request)
    requires Fail(stage, p, r).Moved? && Fail(stage, p, r).state == DkgCanceledByError(stage)
    ensures Untouched(Some(Landed(Fail(stage, p, r))))
  {
    hide Fail;
  }

  lemma SignLeavesDkg(p: Payload, e: Event, r: Request)
    requires p.signing.Some? && p.sig.Some? && CanSign(e, p, r)
    ensures !Landed(SignOutcome(e, p, r)).state.DkgAwait?
  {
    hide Valid, Batch, Signed, Gaveup, Closed;
  }

  lemma StepUntouched(env: Env, i: Inst, x: Input)
    requires Inv(i) && 0 < x.now && !IsDealEvent(x.m) && Untouched(Some(i))
    ensures Untouched(After(env, Some(i), x))
  {
    hide Inv, After, Result, Takes, Decode, Landed, Waiting;
    StepChoices(env, i, x);
    var j := Resumed(i);
    if Decode(x.m).Some? && Takes(j, x.m.event, Decode(x.m).value) {
      if Result(j, x.m.event, Decode(x.m).value, x.now).Moved? {
        ResultUntouched(j, x.m.event, Decode(x.m).value, x.now);
      }
    }
  }

  lemma {:induction false} RunUntouched(env: Env, saved: Option<Inst>, ins: seq<Input>)
    requires SavedInv(saved) && Clocked(ins) && DealsIn(ins) == [] && Untouched(saved)
    ensures Untouched(RoundRun(env, saved, ins))
    decreases |ins|
  {
    hide SavedInv, Untouched, After;
    if ins != [] {
      NoDealsIn(ins);
      NoDealsIn(ins[1..]);
      FirstUntouched(env, saved, ins[0]);
      AfterKeeps(env, saved, ins[0]);
      RunUntouched(env, After(env, saved, ins[0]), ins[1..]);
    }
  }

  lemma FirstUntouched(env: Env, saved: Option<Inst>, x: Input)
    requires SavedInv(saved) && 0 < x.now && !IsDealEvent(x.m) && Untouched(saved)
    ensures Untouched(After(env, saved, x))
  {
    hide Step, Inv, TrimSpace, Waiting, StepEffect;
    StepOnBase(env, saved, x);
    var base := Base(saved, x.m);
    if saved.None? {
      StepCreates(env, x.skip, x.m, x.now);
    }
    if base.Some? {
      StepUntouched(env, base.value, x);
    }
  }

  // ---------------------------------------------------------------- the theorem

  // All deals of a round are valid and in time for it.
  ghost predicate GoodDeals(ms: seq<Message>, round: string, p: Payload)
    requires p.dkg.Some?
  {
    forall k | 0 <= k < |ms| && IsDeal(ms[k]) && ms[k].round == round ::
      Valid(ms[k].data) && ms[k].data.createdAt <= p.dkg.value.expiresAt
  }

  // The round took all deals, one from each of n participants, and awaits responses from all.
  ghost predicate TookAll(q: DkgQuorum, deals: seq<Message>, n: nat, end: Option<Inst>) {
    && |deals| == n && OneFromEach(deals, Range(n))
    && end.Some? && end.value.state == DkgAwait(Responses) && end.value.payload.dkg.Some?
    && end.value.payload.dkg.value.quorum == D.Restatused(Fill(q, Requests(deals)), Awaiting(Responses))
  }

  // The round took the deals of all others, and still awaits the node's own.
  ghost predicate LacksOwn(q: DkgQuorum, deals: seq<Message>, n: nat, me: nat, end: Option<Inst>) {
    && |deals| == n - 1 && OneFromEach(deals, Range(n) - {me})
    && end.Some? && end.value.state == DkgAwait(Deals) && end.value.payload.dkg.Some?
    && end.value.payload.dkg.value.quorum == Fill(q, Requests(deals))
    && Waiting(end.value.payload.dkg.value.quorum, Deals) == {me}
  }

  // A replay of the adapted log, split where the round awaits deals and right after the last deal.
  ghost predicate SplitAtDeals(ins: seq<Input>, pre: seq<Input>, mid: seq<Input>, post: seq<Input>) {
    && ins == pre + mid + post && DealsIn(pre) == [] && DealsIn(post) == []
    && mid != [] && IsDealEvent(mid[|mid| - 1].m)
  }

  lemma DealsOfSplit(ins: seq<Input>, pre: seq<Input>, mid: seq<Input>, post: seq<Input>)
    requires SplitAtDeals(ins, pre, mid, post)
    ensures DealsIn(ins) == DealsIn(mid)
  {
    hide DealsIn;
    DealsInConcat(pre + mid, post);
    DealsInConcat(pre, mid);
  }

  lemma DealIsFresh(ms: seq<Message>, names: seq<string>, round: string, ids: nat -> string, out: seq<Message>,
                    me: nat, p: Payload, x: nat)
    requires FullDealing(ms, names, round) && Adapts(ms, ids, |ms|, out) && me < |names|
    requires x < |out| && DealtTo(out[x], names[me], round)
    requires p.dkg.Some? && p.dkg.value.quorum.Keys == Range(|names|)
    requires Waiting(p.dkg.value.quorum, Deals) == Range(|names|) && GoodDeals(ms, round, p)
    ensures IsDeal(out[x]) && CanConfirm(Deals, p, out[x].data) && out[x].data.createdAt <= p.dkg.value.expiresAt
  {
    hide Adapts, FirstDeal, Position, Firsts, Addressed, FullDealing;
    var j, kept := Classify(ms, names, round, ids, out, x, me);
    assert Valid(ms[j].data) && ms[j].data.createdAt <= p.dkg.value.expiresAt;
    assert out[x].data.pid in Waiting(p.dkg.value.quorum, Deals);
  }

  lemma DealingIsFresh(ms: seq<Message>, names: seq<string>, round: string, ids: nat -> string, out: seq<Message>,
                       me: nat, p: Payload)
    requires FullDealing(ms, names, round) && Adapts(ms, ids, |ms|, out) && me < |names|
    requires p.dkg.Some? && p.dkg.value.quorum.Keys == Range(|names|)
    requires Waiting(p.dkg.value.quorum, Deals) == Range(|names|) && GoodDeals(ms, round, p)
    ensures Fresh(Deals, p, Requests(Dealing(out, names[me], round)))
  {
    hide FullDealing, Adapts, Dealing, DealingAt, DealtTo, Distinct, Pids, Range, CanConfirm, GoodDeals, Waiting,
         Givers;
    var mine, at := Dealing(out, names[me], round), DealingAt(out, names[me], round);
    DealingAtIs(out, names[me], round);
    DealingIsOneFromEach(ms, names, round, ids, out, me);
    forall k | 0 <= k < |mine|
      ensures CanConfirm(Deals, p, mine[k].data) && IsDeal(mine[k]) && mine[k].data.createdAt <= p.dkg.value.expiresAt
    {
      DealIsFresh(ms, names, round, ids, out, me, p, at[k]);
    }
  }

  lemma AllHeard(p: Payload, deals: seq<Message>, n: nat)
    requires p.dkg.Some? && StageOpen(p, Deals) && OneFromEach(deals, Range(n)) && Fresh(Deals, p, Requests(deals))
    requires Waiting(p.dkg.value.quorum, Deals) == Range(n)
    ensures TookAll(p.dkg.value.quorum, deals, n, Some(Collect(Deals, Inst(DkgAwait(Deals), p), Requests(deals))))
  {
    hide StageOpen, Collect, Fill, Pids, Distinct, Waiting, D.Restatused, Fresh, Range;
    AsMany(deals, Range(n));
    ClosedForm(Deals, p, Requests(deals));
  }

  lemma OthersHeard(p: Payload, deals: seq<Message>, n: nat, me: nat)
    requires p.dkg.Some? && StageOpen(p, Deals) && Fresh(Deals, p, Requests(deals)) && me < n
    requires OneFromEach(deals, Range(n) - {me}) && Waiting(p.dkg.value.quorum, Deals) == Range(n)
    ensures LacksOwn(p.dkg.value.quorum, deals, n, me,
                     Some(Collect(Deals, Inst(DkgAwait(Deals), p), Requests(deals))))
  {
    hide StageOpen, Collect, Fill, Pids, Distinct, Waiting, D.Restatused, Fresh;
    AsMany(deals, Range(n) - {me});
    assert me in Range(n) && |Range(n) - {me}| == n - 1;
    ClosedForm(Deals, p, Requests(deals));
    WaitingFill(p, Requests(deals));
    assert Range(n) - (Range(n) - {me}) == {me};
  }

  // Who has given a deal is not awaited any more.
  lemma WaitingFill(p: Payload, rs: seq<Request>)
    requires p.dkg.Some? && Fresh(Deals, p, rs)
    ensures Waiting(Fill(p.dkg.value.quorum, rs), Deals) == Waiting(p.dkg.value.quorum, Deals) - Pids(rs)
  {
    hide Fill, Valid, Distinct;
    var q := p.dkg.value.quorum;
    FillKeys(q, rs);
    forall i | i in q
      ensures i in Waiting(Fill(q, rs), Deals) <==> i in Waiting(q, Deals) - Pids(rs)
    {
      FillAt(q, rs, i);
    }
  }

  // A round that a prefix without deals brought to the deal stage awaits everybody.
  lemma OpenedByPrefix(env: Env, pre: seq<Input>, n: nat)
    requires Clocked(pre) && DealsIn(pre) == []
    requires var i := RoundRun(env, None, pre);
             i.Some? && i.value.state == DkgAwait(Deals) && i.value.payload.sig.Some? && Size(i.value.payload) == n
    ensures var i := RoundRun(env, None, pre).value;
            && Inv(i) && i.payload.dkg.Some? && StageOpen(i.payload, Deals)
            && i.payload.dkg.value.quorum.Keys == Range(n)
            && Waiting(i.payload.dkg.value.quorum, Deals) == Range(n)
  {
    hide Inv, RoundRun, StageOpen, SameRoster, Waiting, Range;
    RoundRunKeeps(env, None, pre);
    RunUntouched(env, None, pre);
    var i := RoundRun(env, None, pre).value;
    Parts(i);
    RosterRange(i.payload);
  }

  // The count of accepted events tells how many of the inputs were accepted.
  lemma AcceptedExactly(env: Env, i: Inst, mid: seq<Input>, e: Inst, n: nat)
    requires Inv(i) && Clocked(mid) && RoundRun(env, Some(i), mid) == Some(e)
    requires i.state == DkgAwait(Deals) && i.payload.sig.Some? && i.payload.dkg.Some? && Size(i.payload) == n
    requires e.state.DkgAwait? && e.payload.sig.Some? && e.payload.dkg.Some? && Size(e.payload) == n
    requires |Waiting(i.payload.dkg.value.quorum, Deals)| == n
    ensures e.state == DkgAwait(Responses) && |Waiting(e.payload.dkg.value.quorum, Responses)| == n ==>
              Progress.Tally(env, Some(i), mid) == n
    ensures e.state == DkgAwait(Deals) && |Waiting(e.payload.dkg.value.quorum, Deals)| == 1 ==>
              Progress.Tally(env, Some(i), mid) == n - 1
  {
    hide Inv, RoundRun, Waiting, Progress.Tally;
    Progress.RunCounted(env, Some(i), mid, Progress.Done(i));
  }

  lemma {:induction false} FillKeys(q: DkgQuorum, rs: seq<Request>)
    requires forall k | 0 <= k < |rs| :: rs[k].ConfirmationRequest?
    ensures Fill(q, rs).Keys == q.Keys
    decreases |rs|
  {
    if rs != [] {
      FillKeys(Put(q, rs[0]), rs[1..]);
    }
  }

  // After all deals everybody is awaited again.
  lemma TookAllWaits(q: DkgQuorum, deals: seq<Message>, n: nat, e: Inst)
    requires TookAll(q, deals, n, Some(e)) && q.Keys == Range(n) && Inv(e)
    ensures e.state == DkgAwait(Responses) && e.payload.sig.Some? && Size(e.payload) == n && e.payload.dkg.Some?
    ensures Waiting(e.payload.dkg.value.quorum, Responses) == Range(n)
  {
    hide Inv, Fill, OneFromEach, SameRoster, StageOpen, SigningReady, SigningOpen, Range;
    AsMany(deals, Range(n));
    FillKeys(q, Requests(deals));
    Parts(e);
    RosterRange(e.payload);
    assert |Range(Size(e.payload))| == |Range(n)|;
  }

  lemma LacksOwnWaits(q: DkgQuorum, deals: seq<Message>, n: nat, me: nat, e: Inst)
    requires LacksOwn(q, deals, n, me, Some(e)) && q.Keys == Range(n) && Inv(e)
    ensures e.state == DkgAwait(Deals) && e.payload.sig.Some? && Size(e.payload) == n && e.payload.dkg.Some?
    ensures |Waiting(e.payload.dkg.value.quorum, Deals)| == 1
  {
    hide Inv, Fill, OneFromEach, SameRoster, StageOpen, SigningReady, SigningOpen, Range, Waiting;
    AsMany(deals, Range(n) - {me});
    FillKeys(q, Requests(deals));
    Parts(e);
    RosterRange(e.payload);
    assert |Range(Size(e.payload))| == |Range(n)|;
  }

  // Adapt an old log and replay it at a node. The part before the first deal of the round brings the
  // round to the deal stage.
  ghost predicate Replays(env: Env, ms: seq<Message>, names: seq<string>, round: string, ids: nat -> string,
                          out: seq<Message>, me: nat, clock: Message -> Time,
                          pre: seq<Input>, mid: seq<Input>, post: seq<Input>)
  {
    && FullDealing(ms, names, round) && Adapts(ms, ids, |ms|, out) && me < |names| && (forall m :: 0 < clock(m))
    && SplitAtDeals(ReplayInputs(out, names[me], round, clock), pre, mid, post)
    && var i := RoundRun(env, None, pre);
       && i.Some? && i.value.state == DkgAwait(Deals) && i.value.payload.sig.Some?
       && Size(i.value.payload) == |names| && i.value.payload.dkg.Some? && GoodDeals(ms, round, i.value.payload)
  }

  // What a node hears of the deals.
  lemma ReplayHears(env: Env, ms: seq<Message>, names: seq<string>, round: string, ids: nat -> string,
                    out: seq<Message>, me: nat, clock: Message -> Time,
                    pre: seq<Input>, mid: seq<Input>, post: seq<Input>)
    requires Replays(env, ms, names, round, ids, out, me, clock, pre, mid, post)
    requires NoReport(env, RoundRun(env, None, pre), mid)
    ensures var i := RoundRun(env, None, pre).value;
            && Inv(i) && i == Inst(DkgAwait(Deals), i.payload) && Clocked(pre) && Clocked(mid) && i.payload.dkg.Some?
            && i.payload.dkg.value.quorum.Keys == Range(|names|) && StageOpen(i.payload, Deals)
            && Waiting(i.payload.dkg.value.quorum, Deals) == Range(|names|)
            && OneFromEach(DealsIn(mid), Givers(ms, names, round, me))
            && Fresh(Deals, i.payload, Requests(DealsIn(mid)))
            && RoundRun(env, Some(i), mid) == Some(Collect(Deals, i, Requests(DealsIn(mid))))
  {
    hide FullDealing, Adapts, ReplayInputs, RoundRun, Inv, StageOpen, GoodDeals, NoReport, DealsIn, Givers,
         Requests, Waiting, Range, OneFromEach, Fresh, Collect, EndsInDeal, SplitAtDeals;
    var n, ins := |names|, ReplayInputs(out, names[me], round, clock);
    SplitParts(ins, pre, mid, post);
    AdaptedDealsFirst(ms, names, round, ids, out);
    ReplayHasDeals(out, names[me], round, clock);
    ReplaySkips(out, names[me], round, clock);
    DealsOfSplit(ins, pre, mid, post);
    SplitClocked(ins, pre, mid, post);
    OpenedByPrefix(env, pre, n);
    var i := RoundRun(env, None, pre).value;
    DealingIsOneFromEach(ms, names, round, ids, out, me);
    DealingIsFresh(ms, names, round, ids, out, me, i.payload);
    AsMany(DealsIn(mid), Givers(ms, names, round, me));
    MidEnds(mid);
    ReplayCollects(env, i.payload, mid);
  }

  // Take any old log in which every participant of a round dealt to every other, among any other
  // messages, and adapt it. Suppose no error report is accepted. If the node's own first deal in the
  // whole log is of this round, it accepts exactly N messages up to the last deal - the N deals, one
  // from each participant, its own self-confirmation included - and right after the last one it
  // awaits everybody's response. If not, the adaptation made its self-confirmation for another round:
  // it accepts the N - 1 deals of the others and goes on awaiting its own.
  lemma AdaptedReplayCompletes(env: Env, ms: seq<Message>, names: seq<string>, round: string, ids: nat -> string,
                               out: seq<Message>, me: nat, clock: Message -> Time,
                               pre: seq<Input>, mid: seq<Input>, post: seq<Input>)
    requires Replays(env, ms, names, round, ids, out, me, clock, pre, mid, post)
    requires NoReport(env, RoundRun(env, None, pre), mid)
    ensures var i, q := RoundRun(env, None, pre), RoundRun(env, None, pre).value.payload.dkg.value.quorum;
            if DealsHereFirst(ms, names[me], round)
            then TookAll(q, DealsIn(mid), |names|, RoundRun(env, None, pre + mid))
                 && Progress.Tally(env, i, mid) == |names|
            else LacksOwn(q, DealsIn(mid), |names|, me, RoundRun(env, None, pre + mid))
                 && Progress.Tally(env, i, mid) == |names| - 1
  {
    hide FullDealing, Adapts, ReplayInputs, RoundRun, Inv, StageOpen, GoodDeals, NoReport, TookAll, LacksOwn,
         DealsIn, Requests, Waiting, Range, Progress.Tally, OneFromEach, Fresh, Collect, SplitAtDeals,
         DealsHereFirst;
    ReplayHears(env, ms, names, round, ids, out, me, clock, pre, mid, post);
    var n, i := |names|, RoundRun(env, None, pre).value;
    var q := i.payload.dkg.value.quorum;
    Safety.RunSplits(env, None, pre, mid);
    RoundRunKeeps(env, Some(i), mid);
    var e := RoundRun(env, Some(i), mid).value;
    if DealsHereFirst(ms, names[me], round) {
      AllHeard(i.payload, DealsIn(mid), n);
      TookAllWaits(q, DealsIn(mid), n, e);
    } else {
      OthersHeard(i.payload, DealsIn(mid), n, me);
      LacksOwnWaits(q, DealsIn(mid), n, me, e);
    }
    AcceptedExactly(env, i, mid, e, n);
  }

  lemma {:induction false} OthersStay(env: Env, i: Inst, ins: seq<Input>)
    requires Inv(i) && i.state == DkgAwait(Deals) && Clocked(ins) && DealsIn(ins) == [] && NoReport(env, Some(i), ins)
    ensures RoundRun(env, Some(i), ins) == Some(i)
    decreases |ins|
  {
    hide Inv, After;
    if ins != [] {
      NoDealsIn(ins);
      OthersChangeNothing(env, i, ins[0]);
      OthersStay(env, i, ins[1..]);
    }
  }

  lemma {:induction false} NoReportSplits(env: Env, saved: Option<Inst>, a: seq<Input>, b: seq<Input>)
    requires NoReport(env, saved, a + b)
    ensures NoReport(env, saved, a) && NoReport(env, RoundRun(env, saved, a), b)
    decreases |a|
  {
    hide After;
    if a == [] {
      assert a + b == b;
    } else {
      assert (a + b)[0] == a[0] && (a + b)[1..] == a[1..] + b;
      NoReportSplits(env, After(env, saved, a[0]), a[1..], b);
    }
  }

  // Over the whole replay: without an accepted error report the round gets past its deals if and
  // only if the node's own first deal is of this round.
  lemma ReplayPassesDeals(env: Env, ms: seq<Message>, names: seq<string>, round: string, ids: nat -> string,
                          out: seq<Message>, me: nat, clock: Message -> Time,
                          pre: seq<Input>, mid: seq<Input>, post: seq<Input>)
    requires Replays(env, ms, names, round, ids, out, me, clock, pre, mid, post)
    requires NoReport(env, RoundRun(env, None, pre), mid + post)
    ensures var e := RoundRun(env, None, ReplayInputs(out, names[me], round, clock));
            e.Some? && (e.value.state != DkgAwait(Deals) <==> DealsHereFirst(ms, names[me], round))
  {
    hide FullDealing, Adapts, ReplayInputs, RoundRun, Inv, GoodDeals, NoReport, DealsIn, DealsHereFirst,
         Progress.Tally, OneFromEach, Fill;
    NoReportSplits(env, RoundRun(env, None, pre), mid, post);
    AdaptedReplayCompletes(env, ms, names, round, ids, out, me, clock, pre, mid, post);
    ReplaySkips(out, names[me], round, clock);
    SplitClocked(ReplayInputs(out, names[me], round, clock), pre, mid, post);
    Safety.RunSplits(env, None, pre, mid);
    Safety.RunSplits(env, None, pre + mid, post);
    RoundRunKeeps(env, None, pre + mid);
    var e := RoundRun(env, None, pre + mid).value;
    if DealsHereFirst(ms, names[me], round) {
      PastDealsStays(env, e, post);
    } else {
      OthersStay(env, e, post);
    }
  }

  // A round that left the deal stage does not come back.
  lemma PastDealsStays(env: Env, i: Inst, ins: seq<Input>)
    requires Inv(i) && i.state == DkgAwait(Responses) && Clocked(ins)
    ensures RoundRun(env, Some(i), ins).Some? && RoundRun(env, Some(i), ins).value.state != DkgAwait(Deals)
  {
    hide Inv, RoundRun;
    Replay.RunKeepsSpent(env, Some(i), ins, DkgConfirm(Deals), Undecodable);
  }

  lemma SplitParts(ins: seq<Input>, pre: seq<Input>, mid: seq<Input>, post: seq<Input>)
    requires SplitAtDeals(ins, pre, mid, post)
    ensures ins == pre + mid + post && DealsIn(pre) == [] && mid != [] && IsDealEvent(mid[|mid| - 1].m)
  {
    hide DealsIn;
  }

  lemma SplitClocked(ins: seq<Input>, pre: seq<Input>, mid: seq<Input>, post: seq<Input>)
    requires ins == pre + mid + post && forall k | 0 <= k < |ins| :: ins[k].skip && 0 < ins[k].now
    ensures Clocked(pre) && Clocked(mid) && Clocked(post) && forall k | 0 <= k < |mid| :: mid[k].skip
  {
    assert forall k | 0 <= k < |post| :: post[k] == ins[|pre| + |mid| + k];
    assert forall k | 0 <= k < |pre| :: pre[k] == ins[k];
    assert forall k | 0 <= k < |mid| :: mid[k] == ins[|pre| + k];
  }

  lemma MidEnds(mid: seq<Input>)
    requires Clocked(mid) && (forall k | 0 <= k < |mid| :: mid[k].skip) && mid != [] && IsDealEvent(mid[|mid| - 1].m)
    requires forall k | 0 <= k < |DealsIn(mid)| :: IsDeal(DealsIn(mid)[k])
    ensures EndsInDeal(mid)
  {
    DealsBack(mid);
  }

  lemma {:induction false} DealsBack(ins: seq<Input>)
    requires forall k | 0 <= k < |DealsIn(ins)| :: IsDeal(DealsIn(ins)[k])
    ensures forall k | 0 <= k < |ins| :: IsDealEvent(ins[k].m) ==> IsDeal(ins[k].m)
    decreases |ins|
  {
    if ins != [] {
      var rest := DealsIn(ins[1..]);
      var all := DealsIn(ins);
      assert forall k | 0 <= k < |rest| :: rest[k] == all[|all| - |rest| + k];
      DealsBack(ins[1..]);
      assert IsDealEvent(ins[0].m) ==> all[0] == ins[0].m;
      assert forall k | 1 <= k < |ins| :: ins[k] == ins[1..][k - 1];
    }
  }
}
