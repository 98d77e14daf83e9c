/** The result batch of the deal operation: a deal for every other participant and a self-confirmation. */
module Airgapped {
  import opened Collections
  import opened Names
  import opened Payloads
  import opened NodeStep
  import opened Mailbox
  import opened HonestRun
  import opened RoundState
  import Adaptation

  // What the batch says to each participant: its deal, or the sender's confirmation to itself.
  ghost function Contents(deals: map<int, Bytes>, n: nat, me: int): seq<Bytes> {
    seq(n, i => if i == me || i !in deals then Adaptation.SELF_CONFIRM else deals[i])
  }

  ghost function DealPost(plan: Plan, me: int, deals: map<int, Bytes>, at: Time): Post
    requires plan.init.ProposalRequest?
  {
    Post(Part(Deals), me, at, Contents(deals, N(plan), me), [])
  }

  // A deal for every other participant, in the order in which the deals come.
  method WriteDeals(plan: Plan, me: int, deals: map<int, Bytes>, at: Time)
    returns (batch: seq<Message>, ghost order: seq<int>)
    requires plan.init.ProposalRequest? && 0 <= me < N(plan) && deals.Keys == Range(N(plan)) - {me}
    ensures Formed(plan, DealPost(plan, me, deals, at))
    ensures Written(plan, DealPost(plan, me, deals, at), deals.Keys, batch, order)
  {
    hide For, Written, DealPost, Range, DealMessage;
    var ps := plan.init.participants;
    batch, order := [], [];
    var todo := deals.Keys;
    ghost var done: set<int> := {};
    DealIsFormed(plan, me, deals, at);
    WrittenNone(plan, DealPost(plan, me, deals, at));
    while todo != {}
      invariant todo + done == deals.Keys && todo !! done
      invariant Written(plan, DealPost(plan, me, deals, at), done, batch, order)
      decreases |todo|
    {
      ghost var some := SomeOf(todo);
      var index :| index in todo;
      var m := DealMessage(plan.round, ps[me], me, ps[index].username, deals[index], at);
      DealIs(plan, me, deals, at, index);
      WrittenMore(plan, DealPost(plan, me, deals, at), done, batch, order, index, m);
      TakenOut(todo, done, {}, index);
      batch, order := batch + [m], order + [index];
      todo, done := todo - {index}, done + {index};
    }
    assert done == deals.Keys;
  }

  // The deal messages of an operation and the self-confirmation last. Whatever the order of the
  // deals, each participant finds exactly its own message.
  method DealBatch(plan: Plan, me: int, deals: map<int, Bytes>, at: Time) returns (batch: seq<Message>)
    requires plan.init.ProposalRequest? && Valid(plan.init) && 0 <= me < N(plan)
    requires deals.Keys == Range(N(plan)) - {me}
    ensures |batch| == N(plan) && Carries(plan, DealPost(plan, me, deals, at), batch)
  {
    hide Valid, For, Written, Range, DealMessage, Mine, Contents;
    ghost var post := DealPost(plan, me, deals, at);
    ghost var order;
    batch, order := WriteDeals(plan, me, deals, at);
    var self := plan.init.participants[me];
    var m := DealMessage(plan.round, self, me, self.username, Adaptation.SELF_CONFIRM, at);
    DealIs(plan, me, deals, at, me);
    WrittenMore(plan, post, deals.Keys, batch, order, me, m);
    batch := batch + [m];
    assert deals.Keys + {me} == Range(N(plan));
    AllWritten(plan, post, deals.Keys + {me}, batch, order + [me]);
  }

  lemma DealIsFormed(plan: Plan, me: int, deals: map<int, Bytes>, at: Time)
    requires plan.init.ProposalRequest? && 0 <= me < N(plan)
    ensures Formed(plan, DealPost(plan, me, deals, at))
  {
  }

  // Deals that are not empty make a batch that honest nodes post, if it was created in time.
  lemma DealIsProper(plan: Plan, me: int, deals: map<int, Bytes>, at: Time)
    requires plan.init.ProposalRequest? && 0 <= me < N(plan) && (forall i | i in deals :: deals[i] != [])
    ensures PostOk(plan, DealPost(plan, me, deals, at)) <==> 0 < at <= plan.open + DKG_DEADLINE
  {
    DealIsFormed(plan, me, deals, at);
    forall bz | bz in Contents(deals, N(plan), me)
      ensures bz != []
    {
      var i :| 0 <= i < N(plan) && Contents(deals, N(plan), me)[i] == bz;
    }
  }

  // What the batch says to one participant.
  lemma DealIs(plan: Plan, me: int, deals: map<int, Bytes>, at: Time, i: int)
    requires plan.init.ProposalRequest? && 0 <= me < N(plan) && 0 <= i < N(plan) && (i == me || i in deals)
    requires Formed(plan, DealPost(plan, me, deals, at))
    ensures For(plan, DealPost(plan, me, deals, at), i)
            == DealMessage(plan.round, plan.init.participants[me], me, plan.init.participants[i].username,
                           if i == me then Adaptation.SELF_CONFIRM else deals[i], at)
  {
  }

  // The messages for some participants, one each, in some order.
  ghost predicate Written(plan: Plan, post: Post, done: set<int>, batch: seq<Message>, order: seq<int>)
    requires plan.init.ProposalRequest? && Formed(plan, post)
  {
    && |batch| == |order| == |done|
    && (forall k | 0 <= k < |order| ::
          order[k] in done && 0 <= order[k] < N(plan) && batch[k] == For(plan, post, order[k]))
    && (forall i | i in done :: i in order)
    && (forall j, k | 0 <= j < k < |order| :: order[j] != order[k])
  }

  lemma WrittenNone(plan: Plan, post: Post)
    requires plan.init.ProposalRequest? && Formed(plan, post)
    ensures Written(plan, post, {}, [], [])
  {
  }

  lemma WrittenMore(plan: Plan, post: Post, done: set<int>, batch: seq<Message>, order: seq<int>, i: int, m: Message)
    requires plan.init.ProposalRequest? && Formed(plan, post) && Written(plan, post, done, batch, order)
    requires 0 <= i < N(plan) && i !in done && m == For(plan, post, i)
    ensures Written(plan, post, done + {i}, batch + [m], order + [i])
  {
    hide Formed, For;
  }

  lemma AllWritten(plan: Plan, post: Post, done: set<int>, batch: seq<Message>, order: seq<int>)
    requires plan.init.ProposalRequest? && Valid(plan.init) && Formed(plan, post) && post.duty == Part(Deals)
    requires Written(plan, post, done, batch, order) && done == Range(N(plan))
    ensures |batch| == N(plan) && Carries(plan, post, batch)
  {
    hide Valid, Carries, For;
    DealsCarry(plan, post, batch, order);
  }

  function DealMessage(round: string, sender: ParticipantEntry, pid: int, to: string, deal: Bytes, at: Time): Message {
    Message("", round, 0, DkgConfirm(Deals), ConfirmationRequest(Deals, pid, deal, [], at), {sender.pubKey},
            sender.username, to)
  }
}
