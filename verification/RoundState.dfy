/** The payload a machine and its dump share, and what the callbacks of all machines use. */
module RoundState {
  import opened Collections
  import opened Names
  import opened Payloads

  // The payload object: machine and dump point to the same one, callbacks update it in place.
  class Round {
    var payload: Payload

    constructor (p: Payload)
      ensures payload == p
    {
      payload := p;
    }
  }

  // A callback did to the payload, and returned, what its specification says. A crash promises
  // nothing about the payload.
  ghost predicate Told(spec: CallbackResult, before: Payload, after: Payload, out: Event, data: Data,
      err: Option<Error>) {
    match spec
    case Refuse(e) => err == Some(e) && (e != NilDereference ==> after == before)
    case Reply(o, d, p) => err == None && out == o && data == d && after == p
  }

  lemma {:induction false} SameMaps<V>(a: map<int, V>, b: map<int, V>)
    requires a.Keys == b.Keys && forall id | id in a :: a[id] == b[id]
    ensures a == b
    decreases |a|
  {
    if a.Keys != {} {
      var id := SomeOf(a.Keys);
      SameMaps(a - {id}, b - {id});
      assert a == (a - {id})[id := a[id]];
      assert b == (b - {id})[id := b[id]];
    }
  }

  // One participant leaves those to visit and joins the visited.
  lemma TakenOut(todo: set<int>, done: set<int>, others: set<int>, id: int)
    requires id in todo && todo !! done && others <= done
    ensures |todo - {id}| == |todo| - 1 && |others + {id}| == |others| + 1
    ensures (todo - {id}) + (done + {id}) == todo + done && (todo - {id}) !! (done + {id})
  {
  }

  // ---------------------------------------------------------------- ordered participants

  lemma Inserted(ids: seq<int>, k: nat, x: int)
    requires Ascending(ids) && k <= |ids|
    requires (forall i | 0 <= i < k :: ids[i] < x) && (forall i | k <= i < |ids| :: x < ids[i])
    ensures Ascending(ids[..k] + [x] + ids[k..]) && Elements(ids[..k] + [x] + ids[k..]) == Elements(ids) + {x}
  {
    var out := ids[..k] + [x] + ids[k..];
    assert forall i | 0 <= i < |out| :: out[i] == if i < k then ids[i] else if i == k then x else ids[i - 1];
    assert ids == ids[..k] + ids[k..];
    forall y
      ensures y in Elements(out) <==> y in Elements(ids) || y == x
    {
      assert y in ids <==> y in ids[..k] || y in ids[k..];
    }
  }

  method Insert(ids: seq<int>, x: int) returns (out: seq<int>)
    requires Ascending(ids) && x !in Elements(ids)
    ensures Ascending(out) && Elements(out) == Elements(ids) + {x}
  {
    var k := 0;
    while k < |ids| && ids[k] < x
      invariant k <= |ids| && forall i | 0 <= i < k :: ids[i] < x
    {
      k := k + 1;
    }
    assert forall i | 0 <= i < |ids| :: ids[i] in Elements(ids);
    Inserted(ids, k, x);
    out := ids[..k] + [x] + ids[k..];
  }

  // Collects the keys of a quorum, which come in no particular order, and sorts them.
  method OrderedIds(keys: set<int>) returns (out: seq<int>)
    ensures out == Sorted(keys)
  {
    var todo := keys;
    out := [];
    while todo != {}
      invariant todo <= keys && Ascending(out) && Elements(out) == keys - todo
      decreases |todo|
    {
      ghost var some := SomeOf(todo);
      var id :| id in todo;
      out := Insert(out, id);
      todo := todo - {id};
    }
    AscendingUnique(out, Sorted(keys));
  }

  lemma RestOf(ids: seq<int>, k: nat)
    requires k < |ids|
    ensures ids[k] in Elements(ids) && Elements(ids[k..]) <= Elements(ids)
    ensures ids[k..] != [] && ids[k..][0] == ids[k] && ids[k..][1..] == ids[k + 1..]
  {
    assert forall x | x in ids[k..] :: x in ids;
  }

  // ---------------------------------------------------------------- requests

  // The request validation: names are unique, then every entry is long enough.
  method ValidateProposal(r: Request) returns (ok: bool)
    requires r.ProposalRequest?
    ensures ok <==> ValidProposal(r)
  {
    var ps := r.participants;
    if |ps| < PARTICIPANTS_MIN || r.threshold < THRESHOLD_MIN || r.threshold > |ps| {
      return false;
    }
    var seen: set<string> := {};
    for i := 0 to |ps|
      invariant forall j | 0 <= j < i :: ps[j].username in seen
      invariant forall name | name in seen :: exists j :: 0 <= j < i && ps[j].username == name
      invariant forall j, k | 0 <= j < k < i :: ps[j].username != ps[k].username
    {
      if ps[i].username in seen {
        return false;
      }
      seen := seen + {ps[i].username};
    }
    for i := 0 to |ps|
      invariant forall j | 0 <= j < i :: ValidEntry(ps[j])
    {
      var e := ps[i];
      if |e.username| < USERNAME_MIN || |e.username| > USERNAME_MAX
         || |e.pubKey| < PUB_KEY_MIN || |e.dkgPubKey| < DKG_PUB_KEY_MIN {
        assert !ValidEntry(ps[i]);
        return false;
      }
    }
    return r.createdAt != 0;
  }

  method ValidateRequest(r: Request) returns (ok: bool)
    ensures ok <==> Valid(r)
  {
    match r
    case ProposalRequest(_, _, _) => ok := ValidateProposal(r);
    case ReplyRequest(pid, at) => return 0 <= pid && at != 0;
    case ConfirmationRequest(_, pid, content, _, at) => return 0 <= pid && content != [] && at != 0;
    case DkgErrorRequest(pid, err, at) => return 0 <= pid && err.Some? && at != 0;
    case SigningStartRequest(batch, pid, tasks, at) =>
      if batch == "" || |tasks| == 0 || pid < 0 || at == 0 {
        return false;
      }
      for i := 0 to |tasks|
        invariant forall j | 0 <= j < i :: ValidTask(tasks[j])
      {
        if !ValidTask(tasks[i]) {
          return false;
        }
      }
      return true;
    case PartialSignsRequest(batch, pid, signs, at) =>
      if batch == "" || at == 0 || pid < 0 || |signs| == 0 {
        return false;
      }
      for i := 0 to |signs|
        invariant forall j | 0 <= j < i :: ValidSign(signs[j])
      {
        if !ValidSign(signs[i]) {
          return false;
        }
      }
      return true;
    case SigningErrorRequest(pid, err, at) => return 0 <= pid && err.Some? && at != 0;
    case DefaultRequest(at) => return at != 0;
    case Undecodable => return false;
  }

  // What the validation asks of each request, in numbers.
  lemma ValidMeans(r: Request)
    ensures r.ProposalRequest? ==>
              (Valid(r) <==>
                && 2 <= |r.participants| && 2 <= r.threshold <= |r.participants| && r.createdAt != 0
                && (forall i, j | 0 <= i < j < |r.participants| ::
                      r.participants[i].username != r.participants[j].username)
                && (forall i | 0 <= i < |r.participants| ::
                      && 3 <= |r.participants[i].username| <= 150
                      && 10 <= |r.participants[i].pubKey| && 10 <= |r.participants[i].dkgPubKey|))
    ensures r.ReplyRequest? ==> (Valid(r) <==> 0 <= r.pid && r.createdAt != 0)
    ensures r.ConfirmationRequest? ==> (Valid(r) <==> 0 <= r.pid && |r.content| > 0 && r.createdAt != 0)
    ensures r.DkgErrorRequest? || r.SigningErrorRequest? ==>
              (Valid(r) <==> 0 <= r.pid && r.error.Some? && r.createdAt != 0)
    ensures r.SigningStartRequest? ==>
              (Valid(r) <==>
                && r.batchId != "" && 0 <= r.pid && r.createdAt != 0 && |r.tasks| > 0
                && forall i | 0 <= i < |r.tasks| ::
                     && r.tasks[i].messageId != ""
                     && (|r.tasks[i].payload| > 0 || r.tasks[i].rangeStart <= r.tasks[i].rangeEnd))
    ensures r.PartialSignsRequest? ==>
              (Valid(r) <==>
                && r.batchId != "" && 0 <= r.pid && r.createdAt != 0 && |r.signs| > 0
                && forall i | 0 <= i < |r.signs| :: r.signs[i].messageId != "" && |r.signs[i].sign| > 0)
    ensures r.DefaultRequest? ==> (Valid(r) <==> r.createdAt != 0)
  {
  }
}
