/** The pool of operations that wait for the airgapped machine, with tombstones, and the posting of
    their results. */
module OperationPool {
  import opened Collections
  import opened Names
  import opened Payloads
  import opened NodeStep
  import opened RoundInvariant
  import opened Runs
  import opened NodeService
  import Safety
  import Steps

  const PROCESSED := OtherEvent("operation_processed_successfully")

  // An operation as the pool keeps it. A processed one carries an event and result messages.
  datatype Op = Op(
    id: string, kind: State, payload: Bytes, event: Event, results: seq<Message>, createdAt: Time, round: string,
    extra: Bytes)

  // The comparison that ties a processed operation to the stored one.
  predicate SameTask(a: Op, b: Op) {
    a.id == b.id && a.kind == b.kind && a.payload == b.payload
  }

  type Ops = map<string, Op>

  function VisibleOps(operations: Ops, deleted: Ops): Ops {
    map id | id in operations && id !in deleted :: operations[id]
  }

  class OperationRepo {
    var operations: Ops
    var deleted: Ops

    constructor ()
      ensures operations == map[] && deleted == map[]
    {
      operations, deleted := map[], map[];
    }

    // All operations that were not deleted.
    method GetOperations() returns (result: Ops)
      ensures result == VisibleOps(operations, deleted)
    {
      result := map[];
      var todo := operations.Keys;
      ghost var done: set<string> := {};
      while todo != {}
        invariant todo + done == operations.Keys && todo !! done
        invariant result == map id | id in done && id !in deleted :: operations[id]
        decreases |todo|
      {
        ghost var some := SomeOf(todo);
        var id :| id in todo;
        if id !in deleted {
          result := result[id := operations[id]];
        }
        todo, done := todo - {id}, done + {id};
      }
      assert done == operations.Keys;
    }

    method PutOperation(op: Op) returns (ok: bool)
      modifies this`operations
      ensures ok <==> op.id !in VisibleOps(old(operations), deleted)
      ensures operations == if ok then VisibleOps(old(operations), deleted)[op.id := op] else old(operations)
    {
      var visible := GetOperations();
      if op.id in visible {
        return false;
      }
      operations := visible[op.id := op];
      return true;
    }

    method DeleteOperation(op: Op) returns (ok: bool)
      modifies this`operations, this`deleted
      ensures ok <==> op.id !in old(deleted)
      ensures deleted == if ok then old(deleted)[op.id := op] else old(deleted)
      ensures operations == if ok then VisibleOps(old(operations), deleted) else old(operations)
    {
      if op.id in deleted {
        return false;
      }
      deleted := deleted[op.id := op];
      var visible := GetOperations();
      operations := map id | id in visible && id != op.id :: visible[id];
      assert operations == visible;
      return true;
    }

    method GetOperationById(id: string) returns (op: Option<Op>)
      ensures op == if id in VisibleOps(operations, deleted) then Some(VisibleOps(operations, deleted)[id]) else None
    {
      var visible := GetOperations();
      return if id in visible then Some(visible[id]) else None;
    }
  }

  // ---------------------------------------------------------------- posting results

  // A result message as it leaves the node.
  function Signed(m: Message, username: string, key: Bytes): Message {
    m.(sender := username, signers := {key})
  }

  function SignedAll(ms: seq<Message>, username: string, key: Bytes): seq<Message> {
    seq(|ms|, i requires 0 <= i < |ms| => Signed(ms[i], username, key))
  }

  // The messages that were sent for some results: one for each, in order, from this sender and signed
  // with its key, and otherwise unchanged.
  ghost predicate SentFor(results: seq<Message>, out: seq<Message>, username: string, key: Bytes) {
    && |out| == |results|
    && forall k | 0 <= k < |results| ::
         && out[k].sender == username && out[k].signers == {key}
         && out[k].round == results[k].round && out[k].event == results[k].event && out[k].data == results[k].data
         && out[k].recipient == results[k].recipient && out[k].id == results[k].id && out[k].offset == results[k].offset
  }

  lemma SignedAllIs(results: seq<Message>, username: string, key: Bytes)
    ensures SentFor(results, SignedAll(results, username, key), username, key)
  {
  }

  // Whatever a worker sends passes the signature check of every round that has its key.
  lemma SentPasses(results: seq<Message>, out: seq<Message>, username: string, key: Bytes, k: nat, p: Payload)
    requires SentFor(results, out, username, key) && k < |out|
    requires username != "" && username in p.pubKeys && p.pubKeys[username] == key
    ensures Safety.SignedFor(p, out[k])
    ensures out[k].event != SignatureReconstructed && out[k].event != SignatureReconstructionFailed ==>
              Steps.Gate(false, p, out[k])
  {
  }

  // The pool of a node, the ids of the operations whose results it posted, in order, and its rounds.
  datatype PoolState = PoolState(operations: Ops, deleted: Ops, posted: seq<string>, store: Store)

  function Visible(st: PoolState): Ops {
    VisibleOps(st.operations, st.deleted)
  }

  function PutIn(st: PoolState, op: Op): PoolState {
    if op.id in Visible(st) then st else st.(operations := Visible(st)[op.id := op])
  }

  function DeleteFrom(st: PoolState, op: Op): PoolState {
    if op.id in st.deleted then st
    else
      var deleted := st.deleted[op.id := op];
      st.(operations := VisibleOps(st.operations, deleted), deleted := deleted)
  }

  // A public polynomial can be written into the round.
  predicate Writable(store: Store, round: string) {
    round in store && Routable(store[round].state) && store[round].payload.dkg.Some?
  }

  // The round with a public polynomial of the airgapped machine.
  function WithPoly(i: Inst, poly: Bytes): Inst
    requires i.payload.dkg.Some?
  {
    i.(payload := i.payload.(dkg := Some(i.payload.dkg.value.(pubPoly := poly))))
  }

  // The stored operation exists, waits for a result, and is the one that was processed; one that
  // was processed without results needs the round its polynomial goes to.
  predicate Executable(st: PoolState, op: Op) {
    && op.event != NoEvent && op.id in Visible(st) && SameTask(Visible(st)[op.id], op)
    && (op.event == PROCESSED ==> Writable(st.store, op.round))
  }

  function ExecuteOn(st: PoolState, op: Op): PoolState {
    if !Executable(st, op) then st
    else if op.event == PROCESSED then
      DeleteFrom(st.(store := st.store[op.round := WithPoly(st.store[op.round], op.extra)]), op)
    else DeleteFrom(st.(posted := st.posted + [op.id]), op)
  }

  class Worker {
    const username: string
    const key: Bytes
    const repo: OperationRepo
    const node: Node
    var posted: seq<string>
    var sent: seq<Message>

    constructor (name: string, k: Bytes, r: OperationRepo, n: Node)
      ensures username == name && key == k && repo == r && node == n && posted == [] && sent == []
    {
      username, key, repo, node, posted, sent := name, k, r, n, [], [];
    }

    function State(): PoolState
      reads this, repo, node
    {
      PoolState(repo.operations, repo.deleted, posted, node.store)
    }

    // Signs the results of an operation and posts them.
    method Post(op: Op)
      modifies this`posted, this`sent
      ensures posted == old(posted) + [op.id] && |old(sent)| <= |sent| && sent[..|old(sent)|] == old(sent)
      ensures SentFor(op.results, sent[|old(sent)|..], username, key)
    {
      var results := op.results;
      for i := 0 to |op.results|
        invariant |results| == |op.results|
        invariant forall k | 0 <= k < |results| ::
                    results[k] == if k < i then Signed(op.results[k], username, key) else op.results[k]
      {
        var message := results[i];
        message := message.(sender := username);
        message := message.(signers := {key});
        results := results[i := message];
      }
      assert results == SignedAll(op.results, username, key);
      SignedAllIs(op.results, username, key);
      sent := sent + results;
      posted := posted + [op.id];
    }

    // Writes the public polynomial of a processed operation into its round.
    method WritePoly(round: string, poly: Bytes) returns (ok: bool)
      modifies node`store
      ensures ok <==> Writable(old(node.store), round)
      ensures node.store
              == if ok then old(node.store)[round := WithPoly(old(node.store)[round], poly)] else old(node.store)
    {
      hide Routable;
      var i := node.FindInstance(round);
      if i.None? || i.value.round.payload.dkg.None? {
        return false;
      }
      var p := i.value.round.payload;
      i.value.round.payload := p.(dkg := Some(p.dkg.value.(pubPoly := poly)));
      node.store := node.store[round := Inst(i.value.dumpState, i.value.round.payload)];
      return true;
    }

    // Posts the results of a stored operation, or writes its polynomial, and buries it.
    method ExecuteOperation(op: Op) returns (ok: bool)
      modifies this`posted, this`sent, repo, node`store
      ensures ok <==> Executable(old(State()), op)
      ensures State() == ExecuteOn(old(State()), op)
      ensures |old(sent)| <= |sent| && sent[..|old(sent)|] == old(sent)
      ensures SentFor(if ok && op.event != PROCESSED then op.results else [], sent[|old(sent)|..], username, key)
    {
      hide Routable, Writable, WithPoly;
      if op.event == NoEvent {
        return false;
      }
      var stored := repo.GetOperationById(op.id);
      if stored.None? || !SameTask(stored.value, op) {
        return false;
      }
      if op.event != PROCESSED {
        Post(op);
      } else {
        ok := WritePoly(op.round, op.extra);
        if !ok {
          return;
        }
      }
      ok := repo.DeleteOperation(op);
    }
  }

  // ---------------------------------------------------------------- any sequence of calls

  // Between calls on the pool the node may change its rounds in any way.
  datatype Call = Put(op: Op) | Delete(op: Op) | Execute(op: Op) | Handle(store: Store)

  function ApplyCall(st: PoolState, c: Call): PoolState {
    match c
    case Put(op) => PutIn(st, op)
    case Delete(op) => DeleteFrom(st, op)
    case Execute(op) => ExecuteOn(st, op)
    case Handle(store) => st.(store := store)
  }

  function AfterCalls(calls: seq<Call>): PoolState {
    if calls == [] then PoolState(map[], map[], [], map[])
    else ApplyCall(AfterCalls(calls[..|calls| - 1]), calls[|calls| - 1])
  }

  // The first operation that was put under an id.
  function FirstPut(calls: seq<Call>, id: string): Option<Op> {
    if calls == [] then None
    else
      var before := FirstPut(calls[..|calls| - 1], id);
      var c := calls[|calls| - 1];
      if before.Some? then before else if c.Put? && c.op.id == id then Some(c.op) else None
  }

  // The visible operations are the first ones put under ids that are not buried.
  ghost predicate Shows(calls: seq<Call>, st: PoolState) {
    && (forall id :: id in Visible(st) <==> FirstPut(calls, id).Some? && id !in st.deleted)
    && (forall id | id in Visible(st) :: Visible(st)[id] == FirstPut(calls, id).value)
  }

  // Every deletion buries, and nothing else does but an execution.
  ghost predicate Buries(calls: seq<Call>, st: PoolState) {
    && (forall c | c in calls && c.Delete? :: c.op.id in st.deleted)
    && (forall id | id in st.deleted :: exists c :: c in calls && (c.Delete? || c.Execute?) && c.op.id == id)
  }

  // What was posted is buried, and was posted once.
  ghost predicate PostedOnce(st: PoolState) {
    && (forall k | 0 <= k < |st.posted| :: st.posted[k] in st.deleted)
    && (forall j, k | 0 <= j < k < |st.posted| :: st.posted[j] != st.posted[k])
  }

  lemma FirstPutGrows(calls: seq<Call>, c: Call, id: string)
    ensures FirstPut(calls + [c], id) ==
            if FirstPut(calls, id).Some? then FirstPut(calls, id)
            else if c.Put? && c.op.id == id then Some(c.op) else None
  {
    var more := calls + [c];
    assert more[..|more| - 1] == calls && more[|more| - 1] == c;
  }

  // What one call makes visible and buries.
  lemma CallShows(st: PoolState, c: Call)
    ensures var v := ApplyCall(st, c);
            && (c.Delete? ==>
                  v.deleted == st.deleted[c.op.id := c.op]
                  || (v.deleted == st.deleted && c.op.id in st.deleted))
            && (c.Put? || c.Handle? ==> v.deleted == st.deleted)
            && (c.Execute? ==> v.deleted == if Executable(st, c.op) then st.deleted[c.op.id := c.op] else st.deleted)
            && (forall id :: id in Visible(v) <==>
                  id !in v.deleted && (id in Visible(st) || (c.Put? && c.op.id == id)))
            && (forall id | id in Visible(v) :: id in Visible(st) || c.Put?)
            && (forall id | id in Visible(v) :: Visible(v)[id] == if id in Visible(st) then Visible(st)[id] else c.op)
  {
    match c
    case Put(op) =>
    case Delete(op) =>
    case Execute(op) =>
    case Handle(_) =>
  }

  lemma ShowsKept(calls: seq<Call>, st: PoolState, c: Call)
    requires Shows(calls, st)
    ensures Shows(calls + [c], ApplyCall(st, c))
  {
    hide ApplyCall, Visible, Executable, FirstPut;
    CallShows(st, c);
    forall id
      ensures FirstPut(calls + [c], id) ==
              if FirstPut(calls, id).Some? then FirstPut(calls, id)
              else if c.Put? && c.op.id == id then Some(c.op) else None
    {
      FirstPutGrows(calls, c, id);
    }
  }

  lemma BuriesKept(calls: seq<Call>, st: PoolState, c: Call)
    requires Buries(calls, st)
    ensures Buries(calls + [c], ApplyCall(st, c))
  {
    hide ApplyCall, Visible, Executable;
    CallShows(st, c);
    var more, v := calls + [c], ApplyCall(st, c);
    assert c in more;
    forall id | id in v.deleted
      ensures exists d :: d in more && (d.Delete? || d.Execute?) && d.op.id == id
    {
      if id in st.deleted {
        var d :| d in calls && (d.Delete? || d.Execute?) && d.op.id == id;
        assert d in more;
      } else {
        assert (c.Delete? || c.Execute?) && c.op.id == id;
      }
    }
  }

  lemma PostedKept(st: PoolState, c: Call)
    requires PostedOnce(st)
    ensures PostedOnce(ApplyCall(st, c))
  {
    if c.Execute? && Executable(st, c.op) {
      assert c.op.id !in st.deleted;
    }
  }

  // Over any sequence of calls, the pool shows exactly the first operation put under each id that
  // was never buried, and posts the results of an id at most once.
  lemma {:induction false} PoolIsExact(calls: seq<Call>)
    ensures Shows(calls, AfterCalls(calls)) && Buries(calls, AfterCalls(calls)) && PostedOnce(AfterCalls(calls))
    decreases |calls|
  {
    hide Shows, Buries, PostedOnce, ApplyCall;
    if calls == [] {
      NothingCalled();
    } else {
      var before, c := calls[..|calls| - 1], calls[|calls| - 1];
      assert before + [c] == calls;
      PoolIsExact(before);
      ShowsKept(before, AfterCalls(before), c);
      BuriesKept(before, AfterCalls(before), c);
      PostedKept(AfterCalls(before), c);
    }
  }

  lemma NothingCalled()
    ensures var st := PoolState(map[], map[], [], map[]); Shows([], st) && Buries([], st) && PostedOnce(st)
  {
  }

  // ---------------------------------------------------------------- what is executed

  // The operation is the first one put under its id, was not buried, and comes back with a result; one
  // without messages needs a round that can be loaded and has a DKG.
  ghost predicate ComesBack(calls: seq<Call>, st: PoolState, op: Op) {
    && FirstPut(calls, op.id).Some? && op.id !in st.deleted && op.event != NoEvent
    && op.kind == FirstPut(calls, op.id).value.kind && op.payload == FirstPut(calls, op.id).value.payload
    && (op.event == PROCESSED ==>
          op.round in st.store && Routable(st.store[op.round].state) && st.store[op.round].payload.dkg.Some?)
  }

  // The round has this polynomial and is otherwise the same.
  ghost predicate PolyWritten(i: Inst, n: Inst, poly: Bytes) {
    && i.payload.dkg.Some? && n.payload.dkg.Some? && n.state == i.state
    && n.payload == i.payload.(dkg := n.payload.dkg)
    && n.payload.dkg.value == i.payload.dkg.value.(pubPoly := poly)
  }

  // After any calls, an operation is executed if and only if it comes back as it was put: its results
  // are posted, or its polynomial is written into its round and nowhere else, and it is buried.
  lemma ExecutedExactly(calls: seq<Call>, op: Op)
    ensures var st := AfterCalls(calls);
            var v := ExecuteOn(st, op);
            if !ComesBack(calls, st, op) then v == st
            else
              && op.id in v.deleted
              && (op.event != PROCESSED ==> v.posted == st.posted + [op.id] && v.store == st.store)
              && (op.event == PROCESSED ==>
                    && v.posted == st.posted && v.store.Keys == st.store.Keys
                    && PolyWritten(st.store[op.round], v.store[op.round], op.extra)
                    && forall round | round in st.store && round != op.round :: v.store[round] == st.store[round])
  {
    hide AfterCalls, FirstPut, Buries, PostedOnce, Routable, Visible;
    PoolIsExact(calls);
    FirstPutIs(calls, op.id);
  }

  lemma {:induction false} FirstPutIs(calls: seq<Call>, id: string)
    ensures FirstPut(calls, id).Some? ==> FirstPut(calls, id).value.id == id
    decreases |calls|
  {
    if calls != [] {
      FirstPutIs(calls[..|calls| - 1], id);
    }
  }

  // A polynomial does not touch what a round keeps.
  lemma WithPolyInv(i: Inst, poly: Bytes)
    requires Inv(i) && i.payload.dkg.Some?
    ensures Inv(WithPoly(i, poly))
  {
    hide Inv;
    InvIgnoresKeys(i, WithPoly(i, poly).payload);
  }
}
