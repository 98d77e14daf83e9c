/** Any interleaving of sends, polls and requests to ignore messages hands a node its messages once each,
    in log order. */
module ExactlyOnce {
  import opened NodeStep
  import opened Mailbox
  import opened Delivery

  // A send, with the lines it wrote; a request to ignore messages; or a poll of the node.
  datatype Turn = Sends(written: seq<Message>) | Ignores(more: Ignore) | Polls

  // The log, what is ignored, where the node reads on, and what it was given so far.
  datatype World = World(log: seq<Message>, ig: Ignore, offset: nat, handled: seq<Message>)

  const NEW := World([], Ignore({}, {}), 0, [])

  // Sends continue the numbering of the log.
  ghost predicate Continues(w: World, t: Turn) {
    t.Sends? ==> forall k | 0 <= k < |t.written| :: t.written[k].offset == |w.log| + k
  }

  // A turn, with the polls as the polling loop does them.
  ghost function Play(w: World, t: Turn, name: string): World
    requires w.offset <= |w.log|
  {
    match t
    case Sends(written) => w.(log := w.log + written)
    case Ignores(more) => w.(ig := Ignore(w.ig.ids + more.ids, w.ig.offsets + more.offsets))
    case Polls =>
      w.(offset := NextOffset(w.offset, Unignored(w.log[w.offset..], w.ig)),
         handled := w.handled + Visible(w.log[w.offset..], w.ig, name))
  }

  ghost predicate Plays(w: World, turns: seq<Turn>, name: string)
    decreases |turns|
  {
    turns == [] ||
    (Continues(w, turns[0]) && w.offset <= |w.log| && Plays(Play(w, turns[0], name), turns[1..], name))
  }

  ghost function End(w: World, turns: seq<Turn>, name: string): World
    requires Plays(w, turns, name)
    decreases |turns|
  {
    if turns == [] then w else End(Play(w, turns[0], name), turns[1..], name)
  }

  // ---------------------------------------------------------------- what is for the node

  // An operator asked to leave the message out.
  ghost predicate LeftOut(m: Message, ig: Ignore) {
    m.id in ig.ids || m.offset in ig.offsets
  }

  ghost predicate IsFor(m: Message, name: string) {
    m.recipient == "" || m.recipient == name
  }

  lemma {:induction false} VisibleIs(ms: seq<Message>, ig: Ignore, name: string)
    ensures forall m :: m in Unignored(ms, ig) <==> m in ms && !LeftOut(m, ig)
    ensures forall m :: m in Visible(ms, ig, name) <==> m in ms && !LeftOut(m, ig) && IsFor(m, name)
    decreases |ms|
  {
    if ms != [] {
      VisibleIs(ms[1..], ig, name);
      assert ms == [ms[0]] + ms[1..];
      var rest := Unignored(ms[1..], ig);
      assert Ignored(ms[0], ig) <==> LeftOut(ms[0], ig);
      assert ([ms[0]] + rest)[0] == ms[0] && ([ms[0]] + rest)[1..] == rest;
    }
  }

  // Filtering keeps the order of the offsets.
  lemma {:induction false} Increasing(log: seq<Message>, ig: Ignore, name: string, base: nat)
    requires forall k | 0 <= k < |log| :: log[k].offset == base + k
    ensures forall m | m in Visible(log, ig, name) :: base <= m.offset
    ensures var vs := Visible(log, ig, name); forall i, j | 0 <= i < j < |vs| :: vs[i].offset < vs[j].offset
    decreases |log|
  {
    if log != [] {
      Increasing(log[1..], ig, name, base + 1);
      var rest := Visible(log[1..], ig, name);
      assert forall i | 0 <= i < |rest| :: rest[i] in rest;
    }
  }

  // A poll moves behind the last message that is not ignored.
  lemma {:induction false} NothingLeft(log: seq<Message>, from: nat, ig: Ignore)
    requires Numbered(log) && from <= |log|
    ensures from <= NextOffset(from, Unignored(log[from..], ig)) <= |log|
    ensures forall k | NextOffset(from, Unignored(log[from..], ig)) <= k < |log| :: LeftOut(log[k], ig)
    ensures forall m | m in Unignored(log[from..], ig) :: m.offset < NextOffset(from, Unignored(log[from..], ig))
    decreases |log| - from
  {
    if from < |log| {
      assert log[from..][0] == log[from] && log[from..][1..] == log[from + 1..];
      NothingLeft(log, from + 1, ig);
    }
  }

  // ---------------------------------------------------------------- every interleaving

  // The node was given messages of the log that are for it, in order, from before its reading
  // position, and among them every one that is not ignored.
  ghost predicate Kept(w: World, name: string) {
    && Numbered(w.log) && w.offset <= |w.log|
    && (forall m | m in w.handled :: m.offset < w.offset && m == w.log[m.offset] && IsFor(m, name))
    && (forall i, j | 0 <= i < j < |w.handled| :: w.handled[i].offset < w.handled[j].offset)
    && (forall k | 0 <= k < w.offset && IsFor(w.log[k], name) && !LeftOut(w.log[k], w.ig) :: w.log[k] in w.handled)
  }

  lemma RestIs(log: seq<Message>, from: nat)
    requires Numbered(log) && from <= |log|
    ensures forall m | m in log[from..] :: from <= m.offset < |log| && m == log[m.offset]
    ensures forall k | from <= k < |log| :: log[k] in log[from..]
    ensures forall k | 0 <= k < |log[from..]| :: log[from..][k].offset == from + k
  {
    var rest := log[from..];
    forall m | m in rest
      ensures from <= m.offset < |log| && m == log[m.offset]
    {
      var k :| 0 <= k < |rest| && rest[k] == m;
      assert m == log[from + k];
    }
    forall k | from <= k < |log|
      ensures log[k] in rest
    {
      assert rest[k - from] == log[k];
    }
  }

  // What a poll adds.
  lemma PollAdds(w: World, name: string)
    requires Kept(w, name)
    ensures w.offset <= Play(w, Polls, name).offset <= |w.log|
    ensures forall k | Play(w, Polls, name).offset <= k < |w.log| :: LeftOut(w.log[k], w.ig)
    ensures var more := Visible(w.log[w.offset..], w.ig, name);
            && (forall m | m in more ::
                  && w.offset <= m.offset < Play(w, Polls, name).offset && m == w.log[m.offset]
                  && IsFor(m, name) && !LeftOut(m, w.ig))
            && (forall i, j | 0 <= i < j < |more| :: more[i].offset < more[j].offset)
            && (forall k | w.offset <= k < |w.log| && IsFor(w.log[k], name) && !LeftOut(w.log[k], w.ig) ::
                  w.log[k] in more)
  {
    hide Visible, Unignored, LeftOut, IsFor, NextOffset;
    VisibleIs(w.log[w.offset..], w.ig, name);
    NothingLeft(w.log, w.offset, w.ig);
    RestIs(w.log, w.offset);
    Increasing(w.log[w.offset..], w.ig, name, w.offset);
  }

  lemma PollKeeps(w: World, name: string)
    requires Kept(w, name)
    ensures Kept(Play(w, Polls, name), name)
    ensures forall k | 0 <= k < |w.log| && IsFor(w.log[k], name) && !LeftOut(w.log[k], w.ig) ::
              w.log[k] in Play(w, Polls, name).handled
  {
    hide Visible, Unignored, LeftOut, IsFor, NextOffset;
    var more, v := Visible(w.log[w.offset..], w.ig, name), Play(w, Polls, name);
    PollAdds(w, name);
    forall i, j | 0 <= i < j < |v.handled|
      ensures v.handled[i].offset < v.handled[j].offset
    {
      var n := |w.handled|;
      if i < n {
        assert v.handled[i] in w.handled;
      }
      if j >= n {
        assert v.handled[j] == more[j - n] && more[j - n] in more;
      }
      if i >= n {
        assert v.handled[i] == more[i - n];
      }
    }
  }

  lemma TurnKeeps(w: World, t: Turn, name: string)
    requires Kept(w, name) && Continues(w, t)
    ensures Kept(Play(w, t, name), name)
  {
    hide Visible, Unignored, IsFor;
    match t
    case Sends(written) =>
      var v := Play(w, t, name);
      assert forall k | 0 <= k < |w.log| :: v.log[k] == w.log[k];
    case Ignores(more) =>
    case Polls => PollKeeps(w, name);
  }

  lemma {:induction false} EndKeeps(w: World, turns: seq<Turn>, name: string)
    requires Kept(w, name) && Plays(w, turns, name)
    ensures Kept(End(w, turns, name), name)
    decreases |turns|
  {
    hide Kept;
    if turns != [] {
      TurnKeeps(w, turns[0], name);
      EndKeeps(Play(w, turns[0], name), turns[1..], name);
    }
  }

  // A node that started with an empty log was given messages of the log that are for it, each once and
  // in log order, and one more poll gives it all of those that nobody asked to ignore.
  lemma DeliveredExactlyOnce(turns: seq<Turn>, name: string)
    requires Plays(NEW, turns, name)
    ensures var w := End(NEW, turns, name);
            && Kept(w, name)
            && (forall k | 0 <= k < |w.log| && IsFor(w.log[k], name) && !LeftOut(w.log[k], w.ig) ::
                  w.log[k] in Play(w, Polls, name).handled)
  {
    hide LeftOut, IsFor;
    EndKeeps(NEW, turns, name);
    PollKeeps(End(NEW, turns, name), name);
  }

  // Once somebody asked to ignore a message that the node was not given yet, it is never given to it.
  lemma {:induction false} IgnoredForGood(w: World, turns: seq<Turn>, name: string, m: Message)
    requires Kept(w, name) && Plays(w, turns, name) && LeftOut(m, w.ig) && m !in w.handled
    ensures m !in End(w, turns, name).handled
    decreases |turns|
  {
    hide Kept, Visible, Unignored, NextOffset;
    if turns != [] {
      TurnKeeps(w, turns[0], name);
      if turns[0].Polls? {
        PollAdds(w, name);
      }
      IgnoredForGood(Play(w, turns[0], name), turns[1..], name, m);
    }
  }

  // In particular after IgnoreMessages by offset or id.
  lemma AskedToIgnore(before: seq<Turn>, more: Ignore, after: seq<Turn>, name: string, m: Message)
    requires Plays(NEW, before, name) && m !in End(NEW, before, name).handled
    requires m.id in more.ids || m.offset in more.offsets
    requires End(NEW, before, name).offset <= |End(NEW, before, name).log|
    requires Plays(Play(End(NEW, before, name), Ignores(more), name), after, name)
    ensures m !in End(Play(End(NEW, before, name), Ignores(more), name), after, name).handled
  {
    hide Kept;
    NothingYet(name);
    EndKeeps(NEW, before, name);
    var w := End(NEW, before, name);
    TurnKeeps(w, Ignores(more), name);
    IgnoredForGood(Play(w, Ignores(more), name), after, name, m);
  }

  lemma NothingYet(name: string)
    ensures Kept(NEW, name)
  {
  }
}
