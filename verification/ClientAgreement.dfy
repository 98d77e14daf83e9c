/** Replica agreement at the client: nodes that read the same log, reinitialisations included, agree. */
module ClientAgreement {
  import opened Names
  import opened Payloads
  import opened NodeStep
  import opened RoundInvariant
  import opened Runs
  import opened Mailbox
  import opened Delivery
  import opened Polling
  import opened ClientRounds
  import opened Agreement

  // Clients of one group: they differ in their names and clocks.
  ghost predicate Peers(a: Setup, b: Setup) {
    a.env == b.env && a.redkg == b.redkg && a.skip == b.skip
  }

  // Two sequences of messages that are the same up to recipients and deal bytes.
  ghost predicate Alike(xs: seq<Message>, ys: seq<Message>) {
    |xs| == |ys| && forall k | 0 <= k < |xs| :: SharedMessage(xs[k]) == SharedMessage(ys[k])
  }

  // An old log of which every node of the group replays the same.
  ghost predicate SameReplay(q: ReDkg, nodes: set<string>) {
    forall u, v | u in nodes && v in nodes :: Alike(Replayed(q.messages, u), Replayed(q.messages, v))
  }

  // Whole batches; a reinitialisation is broadcast, and all nodes replay the same old log.
  ghost predicate WholeWith(redkg: Message -> Option<ReDkg>, b: seq<Message>, nodes: set<string>) {
    && Whole(b, nodes)
    && forall m | m in b && m.event == ReinitDkg ::
         b == [m] && (redkg(m).Some? ==> SameReplay(redkg(m).value, nodes))
  }

  // ---------------------------------------------------------------- old logs of whole batches

  lemma {:induction false} ReplayedIsMine(a: seq<Message>, rest: seq<Message>, name: string)
    requires forall k | 0 <= k < |a| :: a[k].event != SigningStart
    requires rest == [] || rest[0].event == SigningStart
    ensures Replayed(a + rest, name) == Mine(a, name)
    decreases |a|
  {
    if a == [] {
      assert a + rest == rest;
    } else {
      assert (a + rest)[0] == a[0] && (a + rest)[1..] == a[1..] + rest;
      ReplayedIsMine(a[1..], rest, name);
    }
  }

  // An old log that consists of whole batches up to the first signing is one.
  lemma WholeReplay(q: ReDkg, inner: seq<seq<Message>>, rest: seq<Message>, nodes: set<string>)
    requires q.messages == Concat(inner) + rest && WholeLog(inner, nodes)
    requires forall k | 0 <= k < |Concat(inner)| :: Concat(inner)[k].event != SigningStart
    requires rest == [] || rest[0].event == SigningStart
    ensures SameReplay(q, nodes)
  {
    hide Concat, Mine, SharedMessage;
    forall u, v | u in nodes && v in nodes
      ensures Alike(Replayed(q.messages, u), Replayed(q.messages, v))
    {
      ReplayedIsMine(Concat(inner), rest, u);
      ReplayedIsMine(Concat(inner), rest, v);
      OnePerBatch(inner, u);
      OnePerBatch(inner, v);
      forall k | 0 <= k < |inner|
        ensures SharedMessage(Mine(Concat(inner), u)[k]) == SharedMessage(Mine(Concat(inner), v)[k])
      {
        assert Whole(inner[k], nodes);
      }
    }
  }

  // ---------------------------------------------------------------- one message

  ghost predicate Twins(xs: seq<Input>, ys: seq<Input>) {
    |xs| == |ys| && forall k | 0 <= k < |xs| :: Twin(xs[k], ys[k])
  }

  lemma {:induction false} InputsTwin(a: seq<Message>, b: seq<Message>, ca: Message -> Time, cb: Message -> Time,
                                      skip: bool)
    requires Alike(a, b)
    ensures Twins(InputsOf(a, ca, skip), InputsOf(b, cb, skip))
    decreases |a|
  {
    hide SharedMessage;
    if a != [] {
      InputsTwin(a[1..], b[1..], ca, cb, skip);
    }
  }

  // The same message for two clients.
  ghost predicate Paired(a: Setup, b: Setup, m: Message, n: Message) {
    && SharedMessage(m) == SharedMessage(n)
    && (m.event == ReinitDkg ==>
          m == n && (a.redkg(m).Some? ==>
                       Alike(Replayed(a.redkg(m).value.messages, a.name), Replayed(a.redkg(m).value.messages, b.name))))
  }

  lemma FedTwins(a: Setup, b: Setup, s: Store, t: Store, m: Message, n: Message)
    requires Peers(a, b) && Paired(a, b, m, n) && s.Keys == t.Keys
    ensures Carried(a, s, m) == Carried(b, t, n) && m.round == n.round
    ensures Twins(FedBy(a, s, m), FedBy(b, t, n))
  {
    hide Replayed, InputsOf, Alike, SharedRequest;
    var req := Carried(a, s, m);
    if req.Some? {
      InputsTwin(Replayed(req.value.messages, a.name), Replayed(req.value.messages, b.name), a.clock, b.clock, true);
    }
  }

  lemma SharedKeys(i: Inst, cs: seq<Comm>, lo: Time)
    ensures SharedInst(WithKeys(i, cs), lo) == WithKeys(SharedInst(i, lo), cs)
  {
    hide SharedQuorum, Rekeyed;
  }

  lemma LoadMirrors(saved: Option<Inst>, round: string, lo: Time)
    ensures Load(SharedSaved(saved, lo), round)
            == match Load(saved, round)
               case LoadFailed(e) => LoadFailed(e)
               case Loaded(i) => Loaded(SharedInst(i, lo))
  {
    hide Shared, TrimSpace, Routable;
    NothingToShare(EmptyPayload(TrimSpace(round)), lo);
  }

  lemma RekeyMirrors(store: Store, round: string, q: ReDkg, lo: Time)
    ensures SharedStore(Rekey(store, round, q), lo) == Rekey(SharedStore(store, lo), round, q)
  {
    hide SharedInst, WithKeys, Load;
    LoadMirrors(Lookup(store, q.dkgId), q.dkgId, lo);
    var res := Load(Lookup(store, q.dkgId), q.dkgId);
    if res.Loaded? {
      SharedKeys(res.inst, q.participants, lo);
    }
  }

  // No message the client steps through, of an old log as well, is past the node's own deadline.
  ghost predicate PunctualClient(c: Setup, store: Store, ms: seq<Message>)
    decreases |ms|
  {
    ms == [] ||
    (Punctual(c.env, store, FedBy(c, store, ms[0])) && PunctualClient(c, HandleEffect(c, store, ms[0]).store, ms[1..]))
  }

  ghost function AllFed(c: Setup, store: Store, ms: seq<Message>): seq<Input>
    decreases |ms|
  {
    if ms == [] then [] else FedBy(c, store, ms[0]) + AllFed(c, HandleEffect(c, store, ms[0]).store, ms[1..])
  }

  ghost predicate AllCovered(ins: seq<Input>, lo: Time) {
    forall k | 0 <= k < |ins| :: Covered(ins[k].m.data, lo)
  }

  lemma {:induction false} PunctualClocked(env: Env, store: Store, ins: seq<Input>)
    requires Punctual(env, store, ins)
    ensures Clocked(ins)
    decreases |ins|
  {
    hide Update, TooLateFor;
    if ins != [] {
      PunctualClocked(env, Update(env, store, ins[0]), ins[1..]);
    }
  }

  lemma HandleMirrors(a: Setup, b: Setup, s: Store, t: Store, m: Message, n: Message, lo: Time)
    requires Peers(a, b) && Paired(a, b, m, n) && 0 < lo
    requires StoreOk(s) && StoreOk(t) && SharedStore(s, lo) == SharedStore(t, lo)
    requires Punctual(a.env, s, FedBy(a, s, m)) && Punctual(b.env, t, FedBy(b, t, n)) && AllCovered(FedBy(a, s, m), lo)
    ensures StoreOk(HandleEffect(a, s, m).store) && StoreOk(HandleEffect(b, t, n).store)
    ensures SharedStore(HandleEffect(a, s, m).store, lo) == SharedStore(HandleEffect(b, t, n).store, lo)
  {
    hide HandleEffect, FedBy, Run, StoreOk, SharedInst, Punctual, Covered, Rekey, Twin, Paired;
    assert s.Keys == SharedStore(s, lo).Keys == t.Keys;
    FedTwins(a, b, s, t, m, n);
    PunctualClocked(a.env, s, FedBy(a, s, m));
    PunctualClocked(b.env, t, FedBy(b, t, n));
    RunSound(a.env, s, FedBy(a, s, m));
    RunSound(b.env, t, FedBy(b, t, n));
    RunsMirror(a.env, s, t, FedBy(a, s, m), FedBy(b, t, n), lo);
    HandledStore(a, s, m);
    HandledStore(b, t, n);
    var req := Carried(a, s, m);
    if req.Some? {
      RekeySound(Run(a.env, s, FedBy(a, s, m)), m.round, req.value);
      RekeySound(Run(b.env, t, FedBy(b, t, n)), n.round, req.value);
      RekeyMirrors(Run(a.env, s, FedBy(a, s, m)), m.round, req.value, lo);
      RekeyMirrors(Run(b.env, t, FedBy(b, t, n)), n.round, req.value, lo);
    }
  }

  // ---------------------------------------------------------------- whole logs

  lemma {:induction false} ClientsMirror(a: Setup, b: Setup, s: Store, t: Store, ms: seq<Message>, ns: seq<Message>,
                                         lo: Time)
    requires Peers(a, b) && 0 < lo && |ms| == |ns| && forall k | 0 <= k < |ms| :: Paired(a, b, ms[k], ns[k])
    requires StoreOk(s) && StoreOk(t) && SharedStore(s, lo) == SharedStore(t, lo)
    requires PunctualClient(a, s, ms) && PunctualClient(b, t, ns) && AllCovered(AllFed(a, s, ms), lo)
    ensures SharedStore(EffectOf(a, s, ms).store, lo) == SharedStore(EffectOf(b, t, ns).store, lo)
    decreases |ms|
  {
    hide HandleEffect, FedBy, StoreOk, SharedStore, Punctual, Covered, Paired, Peers;
    if ms != [] {
      var fed, rest := FedBy(a, s, ms[0]), AllFed(a, HandleEffect(a, s, ms[0]).store, ms[1..]);
      assert forall k | 0 <= k < |fed| :: fed[k] == (fed + rest)[k];
      assert forall k | 0 <= k < |rest| :: rest[k] == (fed + rest)[|fed| + k];
      HandleMirrors(a, b, s, t, ms[0], ns[0], lo);
      assert forall k | 0 <= k < |ms[1..]| :: ms[1..][k] == ms[k + 1] && ns[1..][k] == ns[k + 1];
      ClientsMirror(a, b, HandleEffect(a, s, ms[0]).store, HandleEffect(b, t, ns[0]).store, ms[1..], ns[1..], lo);
    }
  }

  lemma BatchPairs(a: Setup, b: Setup, batch: seq<Message>, nodes: set<string>)
    requires Peers(a, b) && a.name in nodes && b.name in nodes && WholeWith(a.redkg, batch, nodes)
    ensures Paired(a, b, Mine(batch, a.name)[0], Mine(batch, b.name)[0])
  {
    hide Replayed, Alike, SharedMessage;
    MineIsIn(batch, a.name);
    var m := Mine(batch, a.name)[0];
    if m.event == ReinitDkg {
      assert batch == [m] && batch[1..] == [];
    }
  }

  lemma {:induction false} MineIsIn(ms: seq<Message>, name: string)
    ensures forall m | m in Mine(ms, name) :: m in ms
    decreases |ms|
  {
    if ms != [] {
      MineIsIn(ms[1..], name);
    }
  }

  // Two clients that start empty and read the same log of whole batches, in which reinitialisations
  // are broadcast and carry old logs that all replay alike, agree on every round after every batch,
  // as long as no confirmation a node would take misses that node's own deadline.
  lemma ClientsAgree(a: Setup, b: Setup, nodes: set<string>, log: seq<seq<Message>>)
    requires Peers(a, b) && a.name in nodes && b.name in nodes
    requires forall k | 0 <= k < |log| :: WholeWith(a.redkg, log[k], nodes)
    requires PunctualClient(a, map[], Mine(Concat(log), a.name)) && PunctualClient(b, map[], Mine(Concat(log), b.name))
    ensures var s := EffectOf(a, map[], Mine(Concat(log), a.name)).store;
            var t := EffectOf(b, map[], Mine(Concat(log), b.name)).store;
            s.Keys == t.Keys && forall round | round in s :: Agree(s[round], t[round])
  {
    hide EffectOf, SharedMessage, Agree, SharedInst, Inv, Covered, PunctualClient, Peers, SameReplay, Mine, Concat,
         AllFed, Alike;
    forall k | 0 <= k < |log|
      ensures Whole(log[k], nodes)
    {
      assert WholeWith(a.redkg, log[k], nodes);
    }
    OnePerBatch(log, a.name);
    OnePerBatch(log, b.name);
    var ms, ns := Mine(Concat(log), a.name), Mine(Concat(log), b.name);
    var lo := ReferenceTime(AllFed(a, map[], ms));
    forall k | 0 <= k < |ms|
      ensures Paired(a, b, ms[k], ns[k])
    {
      BatchPairs(a, b, log[k], nodes);
    }
    ClientsMirror(a, b, map[], map[], ms, ns, lo);
    SharedStoresAgree(EffectOf(a, map[], ms).store, EffectOf(b, map[], ns).store, lo);
  }
}
