/** Which messages of the log a node handles. */
module Mailbox {
  import opened NodeStep

  // Broadcast, or addressed to this node.
  predicate Addressed(m: Message, node: string) {
    m.recipient == "" || m.recipient == node
  }

  // The messages of a log that a node handles, in log order.
  function Mine(log: seq<Message>, node: string): seq<Message> {
    if log == [] then []
    else if Addressed(log[0], node) then [log[0]] + Mine(log[1..], node)
    else Mine(log[1..], node)
  }

  function Concat(batches: seq<seq<Message>>): seq<Message> {
    if batches == [] then [] else batches[0] + Concat(batches[1..])
  }

  lemma {:induction false} MineConcat(a: seq<Message>, b: seq<Message>, node: string)
    ensures Mine(a + b, node) == Mine(a, node) + Mine(b, node)
    decreases |a|
  {
    if a == [] {
      assert a + b == b;
    } else {
      assert (a + b)[0] == a[0] && (a + b)[1..] == a[1..] + b;
      MineConcat(a[1..], b, node);
    }
  }

  // A log of batches, each with one message for the node, hands it one message per batch.
  lemma {:induction false} OnePerBatch(batches: seq<seq<Message>>, node: string)
    requires forall k | 0 <= k < |batches| :: |Mine(batches[k], node)| == 1
    ensures var mine := Mine(Concat(batches), node);
            |mine| == |batches| && forall k | 0 <= k < |batches| :: mine[k] == Mine(batches[k], node)[0]
    decreases |batches|
  {
    if batches != [] {
      var rest := batches[1..];
      assert forall k | 0 <= k < |rest| :: rest[k] == batches[k + 1];
      OnePerBatch(rest, node);
      MineConcat(batches[0], Concat(rest), node);
    }
  }

  // Exactly one message of a sequence is for the node.
  lemma {:induction false} OnlyOne(ms: seq<Message>, node: string, k: nat)
    requires k < |ms| && Addressed(ms[k], node)
    requires forall j | 0 <= j < |ms| && j != k :: !Addressed(ms[j], node)
    ensures Mine(ms, node) == [ms[k]]
    decreases |ms|
  {
    var rest := ms[1..];
    assert forall j | 0 <= j < |rest| :: rest[j] == ms[j + 1];
    if k == 0 {
      NoneMine(rest, node);
    } else {
      OnlyOne(rest, node, k - 1);
    }
  }

  lemma {:induction false} NoneMine(ms: seq<Message>, node: string)
    requires forall j | 0 <= j < |ms| :: !Addressed(ms[j], node)
    ensures Mine(ms, node) == []
    decreases |ms|
  {
    if ms != [] {
      assert forall j | 0 <= j < |ms[1..]| :: ms[1..][j] == ms[j + 1];
      NoneMine(ms[1..], node);
    }
  }
}
