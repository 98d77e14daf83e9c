/** One number per participant: in the proposal, the quorums, the name map and the airgapped key list. */
module Numbering {
  import opened Names
  import opened Payloads
  import opened NodeStep
  import opened RoundInvariant
  import opened Steps
  import opened Runs
  import Preservation
  import Operations
  import P = ProposalActions

  // ---------------------------------------------------------------- from the proposal to the payload

  // An accepted proposal numbers its participants by position, in the quorum and under their names.
  lemma ProposalNumbers(p: Payload, r: Request, i: nat)
    requires P.Init(p, r).Reply? && r.ProposalRequest? && i < |r.participants|
    ensures var p1, e := P.Init(p, r).payload, r.participants[i];
            && p1.sig.Some? && p1.sig.value.quorum.Keys == Range(|r.participants|)
            && i in p1.sig.value.quorum && p1.sig.value.quorum[i].username == e.username
            && p1.sig.value.quorum[i].dkgPubKey == e.dkgPubKey
            && e.username in p1.ids && p1.ids[e.username] == i
  {
    hide InvitationList, Sorted, P.KeyMap, P.IdMap;
    Preservation.IdMapFinds(p.ids, r.participants, |r.participants|, i);
  }

  // ---------------------------------------------------------------- the airgapped key list

  datatype Key<Point> = Key(pid: int, name: string, pk: Point)

  ghost predicate SortedKeys<Point>(ks: seq<Key<Point>>) {
    forall i, j | 0 <= i < j < |ks| :: ks[i].pid <= ks[j].pid
  }

  // No two keys have the same participant id.
  ghost predicate DistinctPids<Point>(ks: seq<Key<Point>>) {
    forall i, j | 0 <= i < j < |ks| :: ks[i].pid != ks[j].pid
  }

  lemma FirstKey<Point>(a: seq<Key<Point>>, b: seq<Key<Point>>)
    requires a != [] && b != [] && multiset(a) == multiset(b) && SortedKeys(a) && SortedKeys(b) && DistinctPids(a)
    ensures a[0] == b[0]
  {
    assert a[0] in multiset(b) && b[0] in multiset(a);
    var i :| 0 <= i < |b| && b[i] == a[0];
    var j :| 0 <= j < |a| && a[j] == b[0];
    assert b[0].pid <= b[i].pid && a[0].pid <= a[j].pid;
  }

  lemma OtherKeys<Point>(a: seq<Key<Point>>, b: seq<Key<Point>>)
    requires a != [] && b != [] && multiset(a) == multiset(b) && a[0] == b[0]
    ensures multiset(a[1..]) == multiset(b[1..])
  {
    assert a == [a[0]] + a[1..] && b == [b[0]] + b[1..];
    assert multiset(a[1..]) == multiset(a) - multiset{a[0]};
    assert multiset(b[1..]) == multiset(b) - multiset{b[0]};
  }

  // Two orders of the same numbered keys, both sorted, are the same order.
  lemma {:induction false} SortedOnce<Point>(a: seq<Key<Point>>, b: seq<Key<Point>>)
    requires multiset(a) == multiset(b) && SortedKeys(a) && SortedKeys(b) && DistinctPids(a)
    ensures a == b
    decreases |a|
  {
    assert |a| == |multiset(a)| == |multiset(b)| == |b|;
    if a != [] {
      FirstKey(a, b);
      OtherKeys(a, b);
      assert SortedKeys(a[1..]) && SortedKeys(b[1..]) && DistinctPids(a[1..]);
      SortedOnce(a[1..], b[1..]);
      assert a == [a[0]] + a[1..] && b == [b[0]] + b[1..];
    }
  }

  // The public keys of a DKG instance.
  class KeyStore<Point(==)> {
    var keys: seq<Key<Point>>

    constructor ()
      ensures keys == []
    {
      keys := [];
    }

    // Adds a key unless the same participant has the same key already.
    method Add(k: Key<Point>) returns (added: bool)
      modifies this
      ensures added <==> forall i | 0 <= i < |old(keys)| :: old(keys)[i].name != k.name || old(keys)[i].pk != k.pk
      ensures keys == if added then old(keys) + [k] else old(keys)
    {
      for i := 0 to |keys|
        invariant forall j | 0 <= j < i :: keys[j].name != k.name || keys[j].pk != k.pk
      {
        if keys[i].name == k.name && keys[i].pk == k.pk {
          return false;
        }
      }
      keys := keys + [k];
      return true;
    }

    // Orders the keys by participant id.
    method Sort()
      modifies this
      ensures SortedKeys(keys) && multiset(keys) == multiset(old(keys))
    {
      var done: seq<Key<Point>> := [];
      for i := 0 to |keys|
        invariant keys == old(keys) && SortedKeys(done) && multiset(done) == multiset(keys[..i])
      {
        assert keys[..i + 1] == keys[..i] + [keys[i]];
        done := InsertKey(done, keys[i]);
      }
      assert keys[..|keys|] == keys;
      keys := done;
    }

    // The position of the first occurrence of a key.
    method IndexOf(pk: Point) returns (index: int)
      ensures index == FirstAt(keys, pk)
      ensures index < 0 <==> forall j | 0 <= j < |keys| :: keys[j].pk != pk
      ensures 0 <= index ==> index < |keys| && keys[index].pk == pk && forall j | 0 <= j < index :: keys[j].pk != pk
    {
      assert keys[0..] == keys;
      for i := 0 to |keys|
        invariant forall j | 0 <= j < i :: keys[j].pk != pk
      {
        if keys[i].pk == pk {
          FirstAtIs(keys, pk, i);
          return i;
        }
      }
      NotThere(keys, pk);
      return -1;
    }
  }

  method InsertKey<Point(==)>(ks: seq<Key<Point>>, k: Key<Point>) returns (out: seq<Key<Point>>)
    requires SortedKeys(ks)
    ensures SortedKeys(out) && multiset(out) == multiset(ks) + multiset{k}
  {
    var i := 0;
    while i < |ks| && ks[i].pid <= k.pid
      invariant i <= |ks| && forall j | 0 <= j < i :: ks[j].pid <= k.pid
    {
      i := i + 1;
    }
    out := ks[..i] + [k] + ks[i..];
    Inserted(ks, i, k);
  }

  lemma Inserted<Point>(ks: seq<Key<Point>>, i: nat, k: Key<Point>)
    requires SortedKeys(ks) && i <= |ks| && forall j | 0 <= j < i :: ks[j].pid <= k.pid
    requires i < |ks| ==> k.pid < ks[i].pid
    ensures SortedKeys(ks[..i] + [k] + ks[i..]) && multiset(ks[..i] + [k] + ks[i..]) == multiset(ks) + multiset{k}
  {
    var out := ks[..i] + [k] + ks[i..];
    assert forall j | 0 <= j < |out| :: out[j] == if j < i then ks[j] else if j == i then k else ks[j - 1];
    assert SortedKeys(out);
    InsertedBag(ks, i, k);
  }

  lemma InsertedBag<Point>(ks: seq<Key<Point>>, i: nat, k: Key<Point>)
    requires i <= |ks|
    ensures multiset(ks[..i] + [k] + ks[i..]) == multiset(ks) + multiset{k}
  {
    assert ks == ks[..i] + ks[i..];
  }

  function FirstAt<Point(==)>(ks: seq<Key<Point>>, pk: Point): int {
    if ks == [] then -1
    else if ks[0].pk == pk then 0
    else
      var rest := FirstAt(ks[1..], pk);
      if rest < 0 then -1 else rest + 1
  }

  lemma {:induction false} FirstAtIs<Point>(ks: seq<Key<Point>>, pk: Point, i: nat)
    requires i < |ks| && ks[i].pk == pk && forall j | 0 <= j < i :: ks[j].pk != pk
    ensures FirstAt(ks, pk) == i
    decreases |ks|
  {
    if i > 0 {
      FirstAtIs(ks[1..], pk, i - 1);
    }
  }

  lemma {:induction false} NotThere<Point>(ks: seq<Key<Point>>, pk: Point)
    requires forall j | 0 <= j < |ks| :: ks[j].pk != pk
    ensures FirstAt(ks, pk) == -1
    decreases |ks|
  {
    if ks != [] {
      NotThere(ks[1..], pk);
    }
  }

  // ---------------------------------------------------------------- joining a ceremony

  // Every key of a payload is a point.
  ghost predicate Readable<Point>(entries: seq<Entry>, decode: Bytes -> Option<Point>) {
    forall i | 0 <= i < |entries| :: decode(entries[i].content).Some?
  }

  // The keys of a payload, decoded.
  ghost function Decoded<Point>(entries: seq<Entry>, decode: Bytes -> Option<Point>): seq<Key<Point>>
    requires Readable(entries, decode)
  {
    seq(|entries|, i requires 0 <= i < |entries| =>
      Key(entries[i].id, entries[i].username, decode(entries[i].content).value))
  }

  // The keys are those of the payload, each with its participant's id and name, in the same order.
  ghost predicate InOrder<Point>(keys: seq<Key<Point>>, entries: seq<Entry>, decode: Bytes -> Option<Point>) {
    && |keys| == |entries|
    && forall i | 0 <= i < |entries| ::
         keys[i].pid == entries[i].id && keys[i].name == entries[i].username
         && decode(entries[i].content) == Some(keys[i].pk)
  }

  lemma DecodedInOrder<Point>(entries: seq<Entry>, decode: Bytes -> Option<Point>)
    requires Readable(entries, decode)
    ensures InOrder(Decoded(entries, decode), entries, decode)
  {
  }

  // The first entry with the own key, all before it being readable.
  ghost predicate OwnAt<Point>(entries: seq<Entry>, own: Point, decode: Bytes -> Option<Point>, k: nat) {
    && k < |entries| && decode(entries[k].content) == Some(own)
    && forall j | 0 <= j < k :: decode(entries[j].content).Some? && decode(entries[j].content) != Some(own)
  }

  ghost predicate Numbered(entries: seq<Entry>) {
    && (forall i | 0 <= i < |entries| :: entries[i].id == i)
    && (forall i, j | 0 <= i < j < |entries| :: entries[i].username != entries[j].username)
  }

  // The entries carry the numbers under which the payload has their names.
  ghost predicate NumberedIn(entries: seq<Entry>, p: Payload) {
    Numbered(entries)
    && forall i | 0 <= i < |entries| :: entries[i].username in p.ids && p.ids[entries[i].username] == i
  }

  // Whatever a node handled before, the operation with which it opens a DKG lists the participants
  // by their numbers: position, id and the number under the name coincide, and names are different.
  lemma OperationIsNumbered(env: Env, ins: seq<Input>, x: Input)
    requires Clocked(ins) && 0 < x.now
    ensures var out := Step(env, x.skip, RoundRun(env, None, ins), x.m, x.now);
            out.op.Some? && out.op.value.state == DkgAwait(Commits) ==>
              && out.saved.Some? && out.op.value.data.StageInput?
              && out.saved.value.payload.sig.Some? && |out.op.value.data.entries| == Size(out.saved.value.payload)
              && NumberedIn(out.op.value.data.entries, out.saved.value.payload)
  {
    hide Step, RoundRun, Inv, Operations.Offers, NumberedIn, StepEffect, SameRoster, StageOpen, SigningReady,
         SigningOpen;
    RoundRunKeeps(env, None, ins);
    var saved := RoundRun(env, None, ins);
    Operations.OneOperationPerEntry(env, saved, x);
    StepOnBase(env, saved, x);
    var out := Step(env, x.skip, saved, x.m, x.now);
    if out.op.Some? && out.op.value.state == DkgAwait(Commits) {
      Parts(out.saved.value);
      OffersAreNumbered(out.op.value.data.entries, out.saved.value.payload);
    }
  }

  lemma OffersAreNumbered(entries: seq<Entry>, p: Payload)
    requires SameRoster(p) && Operations.Offers(entries, p.dkg.value.quorum, Size(p), Commits)
    ensures |entries| == Size(p) && NumberedIn(entries, p)
  {
    hide Range;
    RosterNames(p);
    NumberedList(entries, p.dkg.value.quorum, Size(p));
  }

  lemma RosterNames(p: Payload)
    requires SameRoster(p)
    ensures var n, q := Size(p), p.dkg.value.quorum;
            q.Keys == Range(n) && forall i, j | i in q && j in q && i != j :: q[i].username != q[j].username
  {
    hide Range;
    var q, sq := p.dkg.value.quorum, p.sig.value.quorum;
    forall i, j | i in q && j in q && i != j
      ensures q[i].username != q[j].username
    {
      assert p.ids[sq[i].username] == i && p.ids[sq[j].username] == j;
    }
  }

  lemma NumberedList(entries: seq<Entry>, q: DkgQuorum, n: nat)
    requires Operations.Offers(entries, q, n, Commits)
    requires forall i, j | i in q && j in q && i != j :: q[i].username != q[j].username
    ensures Numbered(entries)
  {
  }

  datatype Joined<Point> = Joined(pid: int, index: int, keys: seq<Key<Point>>)

  // Finds the own id by scanning the payload for the own key; the scan stops at the first match.
  method ScanPayload<Point(==)>(entries: seq<Entry>, own: Point, decode: Bytes -> Option<Point>) returns (pid: int)
    requires Numbered(entries)
    ensures 0 <= pid ==> OwnAt(entries, own, decode, pid)
    ensures pid < 0 ==>
              !Readable(entries, decode) || forall i | 0 <= i < |entries| :: decode(entries[i].content) != Some(own)
  {
    for k := 0 to |entries|
      invariant forall j | 0 <= j < k :: decode(entries[j].content).Some? && decode(entries[j].content) != Some(own)
    {
      var pk := decode(entries[k].content);
      if pk.None? {
        return -1;
      }
      if pk.value == own {
        return entries[k].id;
      }
    }
    return -1;
  }

  // Stores the keys of all participants.
  method StoreKeys<Point(==)>(entries: seq<Entry>, decode: Bytes -> Option<Point>)
    returns (store: KeyStore<Point>, ok: bool)
    requires Numbered(entries)
    ensures fresh(store)
    ensures ok <==> Readable(entries, decode)
    ensures ok ==> store.keys == Decoded(entries, decode)
  {
    store := new KeyStore<Point>();
    for i := 0 to |entries|
      invariant fresh(store) && |store.keys| == i
      invariant forall j | 0 <= j < i :: decode(entries[j].content).Some?
      invariant forall j | 0 <= j < i ::
                  store.keys[j] == Key(entries[j].id, entries[j].username, decode(entries[j].content).value)
    {
      var pk := decode(entries[i].content);
      if pk.None? {
        return store, false;
      }
      var added := store.Add(Key(entries[i].id, entries[i].username, pk.value));
    }
    return store, true;
  }

  lemma KeysAreSorted<Point>(entries: seq<Entry>, decode: Bytes -> Option<Point>)
    requires Numbered(entries) && Readable(entries, decode)
    ensures SortedKeys(Decoded(entries, decode)) && DistinctPids(Decoded(entries, decode))
  {
  }

  lemma SamePosition<Point>(entries: seq<Entry>, own: Point, decode: Bytes -> Option<Point>, k: nat)
    requires Readable(entries, decode) && OwnAt(entries, own, decode, k)
    ensures FirstAt(Decoded(entries, decode), own) == k
  {
    FirstAtIs(Decoded(entries, decode), own, k);
  }

  // Joins a ceremony: the own id from the payload, all keys stored and sorted, the own index found
  // again among them. The two numbers agree, and the keys stand in the order of the ids, even when
  // participants share a key.
  method JoinCeremony<Point(==)>(entries: seq<Entry>, own: Point, decode: Bytes -> Option<Point>)
    returns (r: Option<Joined<Point>>)
    requires Numbered(entries)
    ensures r.Some? <==> Readable(entries, decode) && exists k :: OwnAt(entries, own, decode, k)
    ensures r.Some? ==>
              && InOrder(r.value.keys, entries, decode)
              && r.value.pid == r.value.index && 0 <= r.value.pid && OwnAt(entries, own, decode, r.value.pid)
  {
    hide SortedKeys, DistinctPids, FirstAt, Decoded;
    var pid := ScanPayload(entries, own, decode);
    if pid < 0 {
      return None;
    }
    var store, ok := StoreKeys(entries, decode);
    if !ok {
      return None;
    }
    KeysAreSorted(entries, decode);
    store.Sort();
    SortedOnce(Decoded(entries, decode), store.keys);
    var index := store.IndexOf(own);
    SamePosition(entries, own, decode, pid);
    if index < 0 {
      return None;
    }
    DecodedInOrder(entries, decode);
    return Some(Joined(pid, index, store.keys));
  }

  // The airgapped machine joins a round with the operation its node emitted for it.
  method JoinRound<Point(==)>(ghost env: Env, ghost ins: seq<Input>, ghost x: Input, op: Operation, own: Point,
                              decode: Bytes -> Option<Point>) returns (r: Option<Joined<Point>>)
    requires Clocked(ins) && 0 < x.now && op.state == DkgAwait(Commits)
    requires Step(env, x.skip, RoundRun(env, None, ins), x.m, x.now).op == Some(op)
    ensures op.data.StageInput?
    ensures r.Some? <==> Readable(op.data.entries, decode) && exists k :: OwnAt(op.data.entries, own, decode, k)
    ensures r.Some? ==>
              && InOrder(r.value.keys, op.data.entries, decode)
              && r.value.pid == r.value.index && 0 <= r.value.pid && OwnAt(op.data.entries, own, decode, r.value.pid)
  {
    hide Step, RoundRun, OwnAt, Readable, InOrder;
    OperationIsNumbered(env, ins, x);
    r := JoinCeremony(op.data.entries, own, decode);
  }
}
