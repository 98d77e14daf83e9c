/** The polling client: every visible message handled once, reinitialisations included. */
module Polling {
  import opened Names
  import opened Payloads
  import opened NodeStep
  import opened RoundInvariant
  import opened Runs
  import opened Mailbox
  import opened Delivery
  import opened NodeService
  import opened RoundState
  import Ceremony
  import Steps

  // ---------------------------------------------------------------- what handling a message does

  // A reinitialisation: the round, the new communication keys, and the old log.
  datatype Comm = Comm(name: string, key: Bytes)
  datatype ReDkg = ReDkg(dkgId: string, participants: seq<Comm>, messages: seq<Message>)

  // What goes to the operation pool: an operation, or all operations of a replay as one.
  datatype Emission = Single(op: Operation) | Combined(dkgId: string, ops: seq<Operation>)

  datatype Effect = Effect(store: Store, emitted: seq<Emission>)

  // A client's surroundings: the node's environment, what the data of a reinitialisation decodes to,
  // its name, its clock, and whether it checks signatures.
  datatype Setup = Setup(
    env: Env, redkg: Message -> Option<ReDkg>, name: string, clock: Message -> Time, skip: bool)

  function Rekeyed(keys: map<string, Bytes>, cs: seq<Comm>): map<string, Bytes> {
    if cs == [] then keys else Rekeyed(keys, cs[..|cs| - 1])[cs[|cs| - 1].name := cs[|cs| - 1].key]
  }

  ghost function OpOf(env: Env, store: Store, x: Input): seq<Operation> {
    match Step(env, x.skip, Lookup(store, x.m.round), x.m, x.now).op
    case None => []
    case Some(op) => [op]
  }

  // The operations of a run, in order.
  ghost function OpsOf(env: Env, store: Store, ins: seq<Input>): seq<Operation>
    decreases |ins|
  {
    if ins == [] then [] else OpOf(env, store, ins[0]) + OpsOf(env, Update(env, store, ins[0]), ins[1..])
  }

  // The replay of an old log: where it leaves the rounds, and the operations it yields.
  ghost function ReplayStore(env: Env, name: string, clock: Message -> Time, store: Store, ms: seq<Message>): Store {
    Run(env, store, InputsOf(Replayed(ms, name), clock, true))
  }

  ghost function ReplayOps(env: Env, name: string, clock: Message -> Time, store: Store, ms: seq<Message>)
    : seq<Operation>
  {
    OpsOf(env, store, InputsOf(Replayed(ms, name), clock, true))
  }

  function WithKeys(i: Inst, cs: seq<Comm>): Inst {
    Inst(i.state, i.payload.(pubKeys := Rekeyed(i.payload.pubKeys, cs)))
  }

  // The round gets its new keys, and is saved under the name in the message.
  ghost function Rekey(store: Store, round: string, q: ReDkg): Store {
    match Load(Lookup(store, q.dkgId), q.dkgId)
    case LoadFailed(_) => store
    case Loaded(i) => Saved(store, q.dkgId, Some(i))[round := WithKeys(i, q.participants)]
  }

  // A round that exists is left alone; otherwise the old log is replayed without signature checks.
  ghost function ReinitEffect(c: Setup, store: Store, m: Message): Effect {
    match c.redkg(m)
    case None => Effect(store, [])
    case Some(q) =>
      if q.dkgId in store then Effect(store, [])
      else Effect(Rekey(ReplayStore(c.env, c.name, c.clock, store, q.messages), m.round, q),
                  [Combined(q.dkgId, ReplayOps(c.env, c.name, c.clock, store, q.messages))])
  }

  ghost function HandleEffect(c: Setup, store: Store, m: Message): Effect {
    if m.event == ReinitDkg then ReinitEffect(c, store, m)
    else
      var x := Input(m, c.clock(m), c.skip);
      var ops := OpOf(c.env, store, x);
      Effect(Update(c.env, store, x), if ops == [] then [] else [Single(ops[0])])
  }

  ghost function EffectOf(c: Setup, store: Store, ms: seq<Message>): Effect
    decreases |ms|
  {
    if ms == [] then Effect(store, [])
    else
      var e := HandleEffect(c, store, ms[0]);
      var rest := EffectOf(c, e.store, ms[1..]);
      Effect(rest.store, e.emitted + rest.emitted)
  }

  // Without reinitialisations, handling messages is a run of the node.
  lemma {:induction false} PlainEffect(c: Setup, store: Store, ms: seq<Message>)
    requires forall m | m in ms :: m.event != ReinitDkg
    ensures EffectOf(c, store, ms).store == Run(c.env, store, InputsOf(ms, c.clock, c.skip))
    decreases |ms|
  {
    hide Update, OpOf;
    if ms != [] {
      var m := ms[0];
      var ins := InputsOf(ms, c.clock, c.skip);
      assert ins[0] == Input(m, c.clock(m), c.skip) && ins[1..] == InputsOf(ms[1..], c.clock, c.skip);
      PlainEffect(c, Update(c.env, store, ins[0]), ms[1..]);
    }
  }

  // ---------------------------------------------------------------- the client

  class Client {
    const username: string
    const node: Node
    const redkg: Message -> Option<ReDkg>
    const clock: Message -> Time
    var offset: nat
    var handled: seq<Message>
    var emitted: seq<Emission>

    constructor (name: string, n: Node, decode: Message -> Option<ReDkg>, time: Message -> Time)
      ensures username == name && node == n && redkg == decode && clock == time
      ensures offset == 0 && handled == [] && emitted == []
    {
      username, node, redkg, clock, offset, handled, emitted := name, n, decode, time, 0, [], [];
    }

    function Situation(): Setup
      reads node
    {
      Setup(node.env, redkg, username, clock, node.skip)
    }

    // Replays the messages of an old round up to the first signing.
    method Replay(messages: seq<Message>) returns (ops: seq<Operation>)
      requires node.skip
      modifies node`store
      ensures node.store == ReplayStore(node.env, username, clock, old(node.store), messages)
      ensures ops == ReplayOps(node.env, username, clock, old(node.store), messages)
    {
      hide Update, OpOf, Step, Addressed, ReplayStore, ReplayOps;
      ops := [];
      ghost var env, before := node.env, node.store;
      assert messages[0..] == messages;
      for k := 0 to |messages|
        invariant ReplayStore(env, username, clock, node.store, messages[k..])
                  == ReplayStore(env, username, clock, before, messages)
        invariant ops + ReplayOps(env, username, clock, node.store, messages[k..])
                  == ReplayOps(env, username, clock, before, messages)
      {
        var m := messages[k];
        ReplayOne(env, username, clock, node.store, messages, k);
        if m.event == SigningStart {
          break;
        }
        if Addressed(m, username) {
          OpIs(env, node.store, Input(m, clock(m), true));
          var op, posted, err := node.ProcessMessage(m, clock(m));
          if op.Some? {
            ops := ops + [op.value];
          }
        }
      }
      ReplayNone(env, username, clock, node.store, messages);
    }

    // Gives the round its new communication keys and saves it under the name in the message.
    method SetKeys(round: string, q: ReDkg)
      modifies node`store
      ensures node.store == Rekey(old(node.store), round, q)
    {
      hide Routable, TrimSpace, Rekeyed, Load;
      var i, err := node.GetInstance(q.dkgId);
      if i.None? {
        return;
      }
      var dump := i.value.round;
      Overwrite(dump, q.participants);
      node.store := node.store[round := Inst(i.value.dumpState, dump.payload)];
    }

    // The new key of each participant, one after the other.
    method Overwrite(dump: Round, cs: seq<Comm>)
      modifies dump
      ensures dump.payload == old(dump.payload).(pubKeys := Rekeyed(old(dump.payload.pubKeys), cs))
    {
      hide Rekeyed;
      ghost var p := dump.payload;
      NoKeys(p.pubKeys);
      assert cs[..0] == [];
      for k := 0 to |cs|
        invariant dump.payload == p.(pubKeys := Rekeyed(p.pubKeys, cs[..k]))
      {
        KeyMore(p.pubKeys, cs, k);
        dump.payload := dump.payload.(pubKeys := dump.payload.pubKeys[cs[k].name := cs[k].key]);
      }
      assert cs[..|cs|] == cs;
    }

    // A reinitialisation: nothing when the round exists; else a replay, one operation and new keys.
    method Reinit(m: Message)
      modifies this`emitted, node
      ensures node.skip == old(node.skip)
      ensures var e := ReinitEffect(old(Situation()), old(node.store), m);
              node.store == e.store && emitted == old(emitted) + e.emitted
    {
      hide ReplayStore, ReplayOps, Rekey;
      var req := redkg(m);
      if req.None? || req.value.dkgId in node.store {
        assert emitted + [] == emitted;
        return;
      }
      var skipped := node.skip;
      node.skip := true;
      var ops := Replay(req.value.messages);
      emitted := emitted + [Combined(req.value.dkgId, ops)];
      SetKeys(m.round, req.value);
      node.skip := skipped;
    }

    // One message of the log.
    method ProcessMessage(m: Message)
      modifies this`handled, this`emitted, node
      ensures node.skip == old(node.skip) && handled == old(handled) + [m]
      ensures var e := HandleEffect(old(Situation()), old(node.store), m);
              node.store == e.store && emitted == old(emitted) + e.emitted
    {
      hide ReinitEffect, Update, OpOf, Step;
      handled := handled + [m];
      if m.event == ReinitDkg {
        Reinit(m);
        return;
      }
      OpIs(node.env, node.store, Input(m, clock(m), node.skip));
      FailedYieldsNothing(node.env, node.store, Input(m, clock(m), node.skip));
      var op, posted, err := node.ProcessMessage(m, clock(m));
      if err.None? && op.Some? {
        emitted := emitted + [Single(op.value)];
      }
      assert emitted + [] == emitted;
    }

    // Handles the messages addressed to this node and moves the reading position behind each.
    method HandleAll(messages: seq<Message>)
      modifies this`offset, this`handled, this`emitted, node
      ensures node.skip == old(node.skip) && handled == old(handled) + Mine(messages, username)
      ensures offset == NextOffset(old(offset), messages)
      ensures var e := EffectOf(old(Situation()), old(node.store), Mine(messages, username));
              node.store == e.store && emitted == old(emitted) + e.emitted
    {
      hide HandleEffect, EffectOf, Mine, Addressed;
      ghost var c, ms := Situation(), Mine(messages, username);
      assert messages[0..] == messages;
      for k := 0 to |messages|
        invariant Situation() == c && handled + Mine(messages[k..], username) == old(handled) + ms
        invariant offset == NextOffset(old(offset), messages[..k])
        invariant EffectOf(c, node.store, Mine(messages[k..], username)).store == EffectOf(c, old(node.store), ms).store
        invariant emitted + EffectOf(c, node.store, Mine(messages[k..], username)).emitted
                  == old(emitted) + EffectOf(c, old(node.store), ms).emitted
      {
        var m := messages[k];
        MineStep(messages, k, username);
        if Addressed(m, username) {
          EffectOne(c, node.store, m, Mine(messages[k + 1..], username));
          ProcessMessage(m);
        }
        assert messages[..k + 1] == messages[..k] + [m];
        offset := m.offset + 1;
      }
      assert messages[|messages|..] == [] && messages[..|messages|] == messages;
      NoEffect(c, node.store, username);
    }

    // One turn of the polling loop.
    method Poll(fs: FileStorage)
      requires fs.Valid() && offset <= |fs.lines|
      modifies this`offset, this`handled, this`emitted, node
      ensures node.skip == old(node.skip)
      ensures handled == old(handled) + Visible(fs.lines[old(offset)..], fs.ignore, username)
      ensures offset == NextOffset(old(offset), Unignored(fs.lines[old(offset)..], fs.ignore))
      ensures var e := EffectOf(old(Situation()), old(node.store),
                Visible(fs.lines[old(offset)..], fs.ignore, username));
              node.store == e.store && emitted == old(emitted) + e.emitted
    {
      hide Unignored, EffectOf, NextOffset, Mine;
      var messages := fs.GetMessages(offset);
      HandleAll(messages);
    }
  }

  lemma NoKeys(keys: map<string, Bytes>)
    ensures Rekeyed(keys, []) == keys
  {
  }

  lemma KeyMore(keys: map<string, Bytes>, cs: seq<Comm>, k: nat)
    requires k < |cs|
    ensures Rekeyed(keys, cs[..k + 1]) == Rekeyed(keys, cs[..k])[cs[k].name := cs[k].key]
  {
    assert cs[..k + 1][..k] == cs[..k] && cs[..k + 1][k] == cs[k];
  }

  lemma FailedYieldsNothing(env: Env, store: Store, x: Input)
    ensures var out := Step(env, x.skip, Lookup(store, x.m.round), x.m, x.now); out.err.Some? ==> out.op.None?
  {
    hide Recover, HandOver, Ceremony.Do;
  }

  lemma EffectOne(c: Setup, store: Store, m: Message, rest: seq<Message>)
    ensures var e, all := HandleEffect(c, store, m), EffectOf(c, store, [m] + rest);
            && all.store == EffectOf(c, e.store, rest).store
            && all.emitted == e.emitted + EffectOf(c, e.store, rest).emitted
  {
    hide HandleEffect;
    assert ([m] + rest)[0] == m && ([m] + rest)[1..] == rest;
  }

  lemma NoEffect(c: Setup, store: Store, name: string)
    ensures Mine([], name) == [] && EffectOf(c, store, []) == Effect(store, [])
  {
  }

  lemma MineStep(ms: seq<Message>, k: nat, name: string)
    requires k < |ms|
    ensures Addressed(ms[k], name) ==> Mine(ms[k..], name) == [ms[k]] + Mine(ms[k + 1..], name)
    ensures !Addressed(ms[k], name) ==> Mine(ms[k..], name) == Mine(ms[k + 1..], name)
  {
    assert ms[k..][0] == ms[k] && ms[k..][1..] == ms[k + 1..];
  }

  // ---------------------------------------------------------------- every round stays sound

  lemma {:induction false} RunSound(env: Env, store: Store, ins: seq<Input>)
    requires StoreOk(store) && Clocked(ins)
    ensures StoreOk(Run(env, store, ins))
    decreases |ins|
  {
    hide Inv, After;
    if ins != [] {
      UpdateSound(env, store, ins[0]);
      RunSound(env, Update(env, store, ins[0]), ins[1..]);
    }
  }

  lemma UpdateSound(env: Env, store: Store, x: Input)
    requires StoreOk(store) && 0 < x.now
    ensures StoreOk(Update(env, store, x))
  {
    hide Inv, Step, Steps.StepEffect;
    StepOnBase(env, Lookup(store, x.m.round), x);
  }

  lemma {:induction false} InputsClocked(ms: seq<Message>, clock: Message -> Time, skip: bool)
    requires forall m :: 0 < clock(m)
    ensures Clocked(InputsOf(ms, clock, skip))
    decreases |ms|
  {
    if ms != [] {
      InputsClocked(ms[1..], clock, skip);
    }
  }

  lemma RekeySound(store: Store, round: string, q: ReDkg)
    requires StoreOk(store)
    ensures StoreOk(Rekey(store, round, q))
  {
    hide Inv, Rekeyed, TrimSpace;
    IdleInv(TrimSpace(q.dkgId));
    var res := Load(Lookup(store, q.dkgId), q.dkgId);
    if res.Loaded? {
      InvIgnoresKeys(res.inst, WithKeys(res.inst, q.participants).payload);
    }
  }

  // Whatever messages a client handles, reinitialisations included, every saved round keeps the
  // invariant of reachable rounds.
  lemma {:induction false} HandlingKeeps(c: Setup, store: Store, ms: seq<Message>)
    requires StoreOk(store) && forall m :: 0 < c.clock(m)
    ensures StoreOk(EffectOf(c, store, ms).store)
    decreases |ms|
  {
    hide StoreOk, HandleEffect;
    if ms != [] {
      HandlingOneKeeps(c, store, ms[0]);
      HandlingKeeps(c, HandleEffect(c, store, ms[0]).store, ms[1..]);
    }
  }

  lemma HandlingOneKeeps(c: Setup, store: Store, m: Message)
    requires StoreOk(store) && forall m :: 0 < c.clock(m)
    ensures StoreOk(HandleEffect(c, store, m).store)
  {
    hide StoreOk, Update, OpOf, OpsOf, Rekey, Run;
    if m.event == ReinitDkg {
      var req := c.redkg(m);
      if req.Some? {
        var ins := InputsOf(Replayed(req.value.messages, c.name), c.clock, true);
        InputsClocked(Replayed(req.value.messages, c.name), c.clock, true);
        RunSound(c.env, store, ins);
        RekeySound(Run(c.env, store, ins), m.round, req.value);
      }
    } else {
      UpdateSound(c.env, store, Input(m, c.clock(m), c.skip));
    }
  }

  lemma ReplayNone(env: Env, name: string, clock: Message -> Time, store: Store, ms: seq<Message>)
    ensures ReplayStore(env, name, clock, store, ms[|ms|..]) == store
    ensures ReplayOps(env, name, clock, store, ms[|ms|..]) == []
  {
    hide Update, OpOf;
    assert ms[|ms|..] == [];
  }

  lemma ReplayOne(env: Env, name: string, clock: Message -> Time, store: Store, ms: seq<Message>, k: nat)
    requires k < |ms|
    ensures ms[k].event == SigningStart ==>
              ReplayStore(env, name, clock, store, ms[k..]) == store
              && ReplayOps(env, name, clock, store, ms[k..]) == []
    ensures ms[k].event != SigningStart && !Addressed(ms[k], name) ==>
              && ReplayStore(env, name, clock, store, ms[k..]) == ReplayStore(env, name, clock, store, ms[k + 1..])
              && ReplayOps(env, name, clock, store, ms[k..]) == ReplayOps(env, name, clock, store, ms[k + 1..])
    ensures ms[k].event != SigningStart && Addressed(ms[k], name) ==>
              var x := Input(ms[k], clock(ms[k]), true);
              var next := Update(env, store, x);
              && ReplayStore(env, name, clock, store, ms[k..]) == ReplayStore(env, name, clock, next, ms[k + 1..])
              && ReplayOps(env, name, clock, store, ms[k..])
                 == OpOf(env, store, x) + ReplayOps(env, name, clock, next, ms[k + 1..])
  {
    hide Update, OpOf, Addressed;
    assert ms[k..][0] == ms[k] && ms[k..][1..] == ms[k + 1..];
    if ms[k].event != SigningStart && Addressed(ms[k], name) {
      RunOne(env, store, ms[k], Replayed(ms[k + 1..], name), clock);
    }
  }

  lemma OpIs(env: Env, store: Store, x: Input)
    ensures OpOf(env, store, x) ==
            var op := Step(env, x.skip, Lookup(store, x.m.round), x.m, x.now).op;
            if op.Some? then [op.value] else []
  {
    hide Step;
  }

  lemma RunOne(env: Env, store: Store, m: Message, rest: seq<Message>, clock: Message -> Time)
    ensures var x := Input(m, clock(m), true);
            && Run(env, store, InputsOf([m] + rest, clock, true))
              == Run(env, Update(env, store, x), InputsOf(rest, clock, true))
            && OpsOf(env, store, InputsOf([m] + rest, clock, true))
               == OpOf(env, store, x) + OpsOf(env, Update(env, store, x), InputsOf(rest, clock, true))
  {
    hide Update, OpOf;
    assert ([m] + rest)[0] == m && ([m] + rest)[1..] == rest;
    var ins := InputsOf([m] + rest, clock, true);
    assert ins[0] == Input(m, clock(m), true) && ins[1..] == InputsOf(rest, clock, true);
  }
}
