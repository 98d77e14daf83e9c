/** The two-way store of responses: by sender and by index. */
module ResponseStore {

  ghost function Bag<K(!new), V>(m: map<K, seq<V>>): multiset<V> {
    if m == map[] then multiset{}
    else
      var k :| k in m;
      multiset(m[k]) + Bag(m - {k})
  }

  // Any entry can be split off.
  lemma {:induction false} BagSplits<K(!new), V>(m: map<K, seq<V>>, k: K)
    requires k in m
    ensures Bag(m) == multiset(m[k]) + Bag(m - {k})
    decreases |m|
  {
    var j :| j in m && Bag(m) == multiset(m[j]) + Bag(m - {j});
    if j != k {
      BagSplits(m - {j}, k);
      BagSplits(m - {k}, j);
      assert m - {j} - {k} == m - {k} - {j};
    }
  }

  function Entries<K, V>(m: map<K, seq<V>>, k: K): seq<V> {
    if k in m then m[k] else []
  }

  // Appending to one entry adds one value.
  lemma BagAppends<K(!new), V>(m: map<K, seq<V>>, k: K, x: V)
    ensures Bag(m[k := Entries(m, k) + [x]]) == Bag(m) + multiset{x}
  {
    var n := m[k := Entries(m, k) + [x]];
    BagSplits(n, k);
    assert n - {k} == m - {k};
    if k in m {
      BagSplits(m, k);
    } else {
      assert m - {k} == m;
    }
  }

  // ---------------------------------------------------------------- the store

  datatype Store<V> = Store(max: nat, count: nat, byAddr: map<string, seq<V>>, byIndex: map<int, seq<V>>)

  datatype Add<V> = Add(addr: string, index: int, value: V)

  function AddTo<V>(s: Store<V>, a: Add<V>): Store<V> {
    if |Entries(s.byAddr, a.addr)| == s.max then s
    else Store(s.max, s.count + 1,
               s.byAddr[a.addr := Entries(s.byAddr, a.addr) + [a.value]],
               s.byIndex[a.index := Entries(s.byIndex, a.index) + [a.value]])
  }

  class MessageStore<V> {
    const max: nat
    var count: nat
    var byAddr: map<string, seq<V>>
    var byIndex: map<int, seq<V>>

    constructor (n: nat)
      ensures State() == Store(n, 0, map[], map[])
    {
      max, count, byAddr, byIndex := n, 0, map[], map[];
    }

    function State(): Store<V>
      reads this
    {
      Store(max, count, byAddr, byIndex)
    }

    // Stores a value under its sender and its index, unless the sender used up its share.
    method AddValue(addr: string, index: int, value: V)
      modifies this
      ensures State() == AddTo(old(State()), Add(addr, index, value))
    {
      var data := if addr in byAddr then byAddr[addr] else [];
      if |data| == max {
        return;
      }
      data := data + [value];
      byAddr := byAddr[addr := data];
      data := if index in byIndex then byIndex[index] else [];
      data := data + [value];
      byIndex := byIndex[index := data];
      count := count + 1;
    }

    // Stores the responses of one participant, each under the index it names.
    method StoreResponses(addr: string, responses: seq<V>, indexOf: V -> int)
      modifies this
      ensures State() == AddAll(old(State()), seq(|responses|, k requires 0 <= k < |responses| =>
                                                Add(addr, indexOf(responses[k]), responses[k])))
    {
      for k := 0 to |responses|
        invariant State() == AddAll(old(State()), AddsOf(addr, responses[..k], indexOf))
      {
        var r := responses[k];
        assert responses[..k + 1] == responses[..k] + [r];
        AddsGrow(addr, responses[..k], r, indexOf);
        AddAllGrows(old(State()), AddsOf(addr, responses[..k], indexOf), Add(addr, indexOf(r), r));
        AddValue(addr, indexOf(r), r);
      }
      assert responses[..|responses|] == responses;
      assert AddsOf(addr, responses, indexOf)
          == seq(|responses|, k requires 0 <= k < |responses| => Add(addr, indexOf(responses[k]), responses[k]));
    }
  }

  function AddsOf<V>(addr: string, responses: seq<V>, indexOf: V -> int): seq<Add<V>> {
    seq(|responses|, k requires 0 <= k < |responses| => Add(addr, indexOf(responses[k]), responses[k]))
  }

  lemma AddsGrow<V>(addr: string, responses: seq<V>, r: V, indexOf: V -> int)
    ensures AddsOf(addr, responses + [r], indexOf) == AddsOf(addr, responses, indexOf) + [Add(addr, indexOf(r), r)]
  {
  }

  function AddAll<V>(s: Store<V>, adds: seq<Add<V>>): Store<V> {
    if adds == [] then s else AddTo(AddAll(s, adds[..|adds| - 1]), adds[|adds| - 1])
  }

  lemma AddAllGrows<V>(s: Store<V>, adds: seq<Add<V>>, a: Add<V>)
    ensures AddAll(s, adds + [a]) == AddTo(AddAll(s, adds), a)
  {
    var more := adds + [a];
    assert more[..|more| - 1] == adds && more[|more| - 1] == a;
  }

  // ---------------------------------------------------------------- any sequence of adds

  // The values an address tried to add, in order.
  function Sent<V>(adds: seq<Add<V>>, addr: string): seq<V> {
    if adds == [] then []
    else
      var a := adds[|adds| - 1];
      Sent(adds[..|adds| - 1], addr) + if a.addr == addr then [a.value] else []
  }

  function Take<V>(s: seq<V>, n: nat): seq<V> {
    if |s| <= n then s else s[..n]
  }

  // The two maps hold the same values, as many as were counted.
  ghost predicate SameValues<V>(s: Store<V>) {
    Bag(s.byAddr) == Bag(s.byIndex) && s.count == |Bag(s.byAddr)|
  }

  // Of each sender the store has the first values it sent, up to its share.
  ghost predicate FirstValues<V>(s: Store<V>, adds: seq<Add<V>>) {
    forall addr :: Entries(s.byAddr, addr) == Take(Sent(adds, addr), s.max)
  }

  // The adds that were within their sender's share, in order.
  function Within<V>(adds: seq<Add<V>>, max: nat): seq<Add<V>> {
    if adds == [] then []
    else
      var before, a := adds[..|adds| - 1], adds[|adds| - 1];
      Within(before, max) + if |Sent(before, a.addr)| < max then [a] else []
  }

  // The values added under an index, in order.
  function Under<V>(adds: seq<Add<V>>, index: int): seq<V> {
    if adds == [] then []
    else
      var a := adds[|adds| - 1];
      Under(adds[..|adds| - 1], index) + if a.index == index then [a.value] else []
  }

  // Under each index the store has the values that were within their sender's share, in order.
  ghost predicate IndexedValues<V>(s: Store<V>, adds: seq<Add<V>>) {
    forall index :: Entries(s.byIndex, index) == Under(Within(adds, s.max), index)
  }

  lemma UnderGrows<V>(adds: seq<Add<V>>, a: Add<V>, index: int)
    ensures Under(adds + [a], index) == Under(adds, index) + if a.index == index then [a.value] else []
  {
    var more := adds + [a];
    assert more[..|more| - 1] == adds && more[|more| - 1] == a;
  }

  lemma WithinGrows<V>(adds: seq<Add<V>>, a: Add<V>, max: nat)
    ensures Within(adds + [a], max) == Within(adds, max) + if |Sent(adds, a.addr)| < max then [a] else []
  {
    var more := adds + [a];
    assert more[..|more| - 1] == adds && more[|more| - 1] == a;
  }

  lemma IndexKept<V>(s: Store<V>, adds: seq<Add<V>>, a: Add<V>)
    requires FirstValues(s, adds) && IndexedValues(s, adds)
    ensures IndexedValues(AddTo(s, a), adds + [a])
  {
    hide Sent, Under, Within;
    var kept, t := Within(adds, s.max), AddTo(s, a);
    WithinGrows(adds, a, s.max);
    assert Entries(s.byAddr, a.addr) == Take(Sent(adds, a.addr), s.max);
    assert kept + [] == kept;
    forall index: int
      ensures Entries(t.byIndex, index) == Under(Within(adds + [a], s.max), index)
    {
      UnderGrows(kept, a, index);
      assert Entries(s.byIndex, index) == Under(kept, index);
      assert Under(kept, index) + [] == Under(kept, index);
    }
  }

  lemma ValuesKept<V>(s: Store<V>, a: Add<V>)
    requires SameValues(s)
    ensures SameValues(AddTo(s, a))
  {
    hide Bag, Entries;
    BagAppends(s.byAddr, a.addr, a.value);
    BagAppends(s.byIndex, a.index, a.value);
  }

  lemma SentGrows<V>(adds: seq<Add<V>>, a: Add<V>, addr: string)
    ensures Sent(adds + [a], addr) == Sent(adds, addr) + if a.addr == addr then [a.value] else []
  {
    var more := adds + [a];
    assert more[..|more| - 1] == adds && more[|more| - 1] == a;
  }

  lemma TakeGrows<V>(s: seq<V>, x: V, n: nat)
    ensures Take(s + [x], n) == if |Take(s, n)| == n then Take(s, n) else Take(s, n) + [x]
  {
  }

  lemma FirstKept<V>(s: Store<V>, adds: seq<Add<V>>, a: Add<V>)
    requires FirstValues(s, adds)
    ensures FirstValues(AddTo(s, a), adds + [a])
  {
    hide Take, Sent;
    forall addr
      ensures Entries(AddTo(s, a).byAddr, addr) == Take(Sent(adds + [a], addr), s.max)
    {
      SentGrows(adds, a, addr);
      TakeGrows(Sent(adds, addr), a.value, s.max);
      assert Sent(adds, addr) + [] == Sent(adds, addr);
    }
  }

  // Both maps hold the same values, as many as were counted: of each sender the first ones it sent,
  // never more than its share, and under each index those of them that were sent under it, in order.
  lemma {:induction false} StoreIsConserved<V>(max: nat, adds: seq<Add<V>>)
    ensures var s := AddAll(Store(max, 0, map[], map[]), adds);
            && s.max == max && SameValues(s) && FirstValues(s, adds) && IndexedValues(s, adds)
            && forall addr :: |Entries(s.byAddr, addr)| <= max
    decreases |adds|
  {
    hide SameValues, FirstValues, IndexedValues, Entries;
    var s := AddAll(Store(max, 0, map[], map[]), adds);
    if adds == [] {
      NothingStored<V>(max);
    } else {
      var before, a := adds[..|adds| - 1], adds[|adds| - 1];
      assert before + [a] == adds;
      StoreIsConserved(max, before);
      ValuesKept(AddAll(Store(max, 0, map[], map[]), before), a);
      FirstKept(AddAll(Store(max, 0, map[], map[]), before), before, a);
      IndexKept(AddAll(Store(max, 0, map[], map[]), before), before, a);
    }
    SharesHold(s, adds);
  }

  lemma NothingStored<V>(max: nat)
    ensures var s: Store<V> := Store(max, 0, map[], map[]); SameValues(s) && FirstValues(s, []) && IndexedValues(s, [])
  {
  }

  lemma SharesHold<V>(s: Store<V>, adds: seq<Add<V>>)
    requires FirstValues(s, adds)
    ensures forall addr :: |Entries(s.byAddr, addr)| <= s.max
  {
    hide Entries, Sent;
  }
}
