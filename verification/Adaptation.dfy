/** Adapting the log of an old ceremony: one self-confirmation before each sender's first deal. */
module Adaptation {
  import opened Names
  import opened Payloads
  import opened NodeStep

  const SELF_CONFIRM: Bytes := [115, 101, 108, 102, 45, 99, 111, 110, 102, 105, 114, 109]

  predicate IsDealEvent(m: Message) {
    m.event == DkgConfirm(Deals)
  }

  // The message carries a deal.
  predicate IsDeal(m: Message) {
    IsDealEvent(m) && m.data.ConfirmationRequest? && m.data.stage == Deals
  }

  // The sender's confirmation to itself, made from one of its deals.
  function SelfConfirm(m: Message, id: string): Message
    requires IsDeal(m)
  {
    Message(id, m.round, 0, DkgConfirm(Deals),
            ConfirmationRequest(Deals, m.data.pid, SELF_CONFIRM, [], m.data.createdAt),
            {}, m.sender, m.sender)
  }

  // The message tells the deal's sender, in its own name, that it dealt to itself, in the same round and
  // at the same time.
  ghost predicate Confirms(n: Message, deal: Message, id: string)
    requires IsDeal(deal)
  {
    && n.id == id && n.round == deal.round && n.event == DkgConfirm(Deals)
    && n.sender == deal.sender && n.recipient == deal.sender
    && n.data.ConfirmationRequest? && n.data.stage == Deals && n.data.pid == deal.data.pid
    && n.data.content == SELF_CONFIRM && n.data.createdAt == deal.data.createdAt
  }

  // The first deal message of its sender.
  ghost predicate FirstDeal(ms: seq<Message>, k: nat) {
    k < |ms| && IsDealEvent(ms[k]) && forall j | 0 <= j < k :: !(IsDealEvent(ms[j]) && ms[j].sender == ms[k].sender)
  }

  ghost predicate Adaptable(ms: seq<Message>) {
    forall k | 0 <= k < |ms| && FirstDeal(ms, k) :: IsDeal(ms[k])
  }

  // How many first deals there are among the first messages, and where a message ends up.
  ghost function Firsts(ms: seq<Message>, k: nat): nat {
    if k == 0 then 0 else Firsts(ms, k - 1) + if FirstDeal(ms, k - 1) then 1 else 0
  }

  ghost function Position(ms: seq<Message>, k: nat): nat {
    k + Firsts(ms, k + 1)
  }

  // The message at a new position comes from an old one: it is that one or was made from it.
  ghost predicate ComesFrom(ms: seq<Message>, x: int, j: nat) {
    x == Position(ms, j) || (FirstDeal(ms, j) && x == Position(ms, j) - 1)
  }

  ghost predicate Explained(ms: seq<Message>, k: nat, x: int) {
    exists j :: 0 <= j < k && ComesFrom(ms, x, j)
  }

  ghost predicate KeepsOld(ms: seq<Message>, k: nat, out: seq<Message>)
    requires k <= |ms|
  {
    forall j | 0 <= j < k :: Position(ms, j) < |out| && out[Position(ms, j)] == ms[j].(offset := Position(ms, j))
  }

  ghost predicate AddsNew(ms: seq<Message>, ids: nat -> string, k: nat, out: seq<Message>)
    requires k <= |ms|
  {
    forall j | 0 <= j < k && FirstDeal(ms, j) ::
      && 0 < Position(ms, j) <= |out| && IsDeal(ms[j])
      && out[Position(ms, j) - 1] == SelfConfirm(ms[j], ids(j)).(offset := Position(ms, j) - 1)
      && Confirms(out[Position(ms, j) - 1], ms[j], ids(j))
  }

  // `out` is the adaptation of the first k messages: each keeps its order and gets its position as
  // offset, each sender's first deal is preceded by its self-confirmation, and nothing else is added.
  ghost predicate Adapts(ms: seq<Message>, ids: nat -> string, k: nat, out: seq<Message>)
    requires k <= |ms|
  {
    && |out| == k + Firsts(ms, k)
    && KeepsOld(ms, k, out) && AddsNew(ms, ids, k, out)
    && forall x | 0 <= x < |out| :: Explained(ms, k, x)
  }

  lemma PositionsGrow(ms: seq<Message>, j: nat, k: nat)
    requires j < k
    ensures Position(ms, j) < Position(ms, k) - if FirstDeal(ms, k) then 1 else 0
    decreases k - j
  {
    hide FirstDeal;
    if j + 1 < k {
      PositionsGrow(ms, j, k - 1);
    }
  }

  lemma ExplainedMore(ms: seq<Message>, k: nat, x: int)
    ensures Explained(ms, k + 1, x) <==> Explained(ms, k, x) || ComesFrom(ms, x, k)
  {
    hide ComesFrom;
  }

  lemma FirstsMore(ms: seq<Message>, k: nat)
    ensures Firsts(ms, k + 1) == Firsts(ms, k) + if FirstDeal(ms, k) then 1 else 0
    ensures Position(ms, k) == k + Firsts(ms, k + 1)
  {
  }

  lemma SelfConfirms(m: Message, id: string, offset: nat)
    requires IsDeal(m)
    ensures Confirms(SelfConfirm(m, id).(offset := offset), m, id)
  {
  }

  lemma AdaptsMore(ms: seq<Message>, ids: nat -> string, k: nat, out: seq<Message>)
    requires k < |ms| && Adapts(ms, ids, k, out) && (FirstDeal(ms, k) ==> IsDeal(ms[k]))
    ensures var mid := if FirstDeal(ms, k) then out + [SelfConfirm(ms[k], ids(k)).(offset := |out|)] else out;
            Adapts(ms, ids, k + 1, mid + [ms[k].(offset := |mid|)])
  {
    hide FirstDeal, SelfConfirm, IsDeal, Explained, Firsts, Position, Confirms;
    FirstsMore(ms, k);
    if FirstDeal(ms, k) {
      SelfConfirms(ms[k], ids(k), |out|);
    }
    var mid := if FirstDeal(ms, k) then out + [SelfConfirm(ms[k], ids(k)).(offset := |out|)] else out;
    var more := mid + [ms[k].(offset := |mid|)];
    assert Position(ms, k) == |mid|;
    assert forall x | 0 <= x < |out| :: more[x] == out[x];
    var n := k + 1;
    forall x | 0 <= x < |more|
      ensures Explained(ms, n, x)
    {
      ExplainedMore(ms, k, x);
      assert x < |out| || x == Position(ms, k) || (FirstDeal(ms, k) && x == Position(ms, k) - 1);
    }
  }

  // Walks through the old messages once, remembering the senders it has fixed. Fails exactly when
  // some sender's first deal cannot be read.
  method Adapt(ms: seq<Message>, ids: nat -> string) returns (r: Option<seq<Message>>)
    ensures r.Some? <==> Adaptable(ms)
    ensures r.Some? ==> Adapts(ms, ids, |ms|, r.value)
    ensures r.Some? ==> forall x | 0 <= x < |r.value| :: r.value[x].offset == x
  {
    hide Adapts, Position, Firsts;
    var out: seq<Message>, newOffset := [], 0;
    var fixed: set<string> := {};
    AdaptsNothing(ms, ids);
    for k := 0 to |ms|
      invariant Adapts(ms, ids, k, out) && newOffset == |out|
      invariant forall s :: s in fixed <==> exists j :: 0 <= j < k && IsDealEvent(ms[j]) && ms[j].sender == s
      invariant forall j | 0 <= j < k && FirstDeal(ms, j) :: IsDeal(ms[j])
      invariant forall x | 0 <= x < |out| :: out[x].offset == x
    {
      var m := ms[k];
      assert FirstDeal(ms, k) <==> m.sender !in fixed && IsDealEvent(m);
      if m.sender !in fixed && IsDealEvent(m) {
        fixed := fixed + {m.sender};
        if !IsDeal(m) {
          return None;
        }
        AdaptsMore(ms, ids, k, out);
        out := out + [SelfConfirm(m, ids(k)).(offset := newOffset)];
        newOffset := newOffset + 1;
      } else {
        AdaptsMore(ms, ids, k, out);
      }
      out := out + [m.(offset := newOffset)];
      newOffset := newOffset + 1;
    }
    return Some(out);
  }

  lemma AdaptsNothing(ms: seq<Message>, ids: nat -> string)
    ensures Adapts(ms, ids, 0, [])
  {
  }
}
