/** The append-only log file and the polling loop: what a node is given to handle. */
module Delivery {
  import opened Names
  import opened Payloads
  import opened NodeStep
  import opened Mailbox
  import opened Runs

  // Messages an operator asked to leave out, by id or by offset.
  datatype Ignore = Ignore(ids: set<string>, offsets: set<nat>)

  predicate Ignored(m: Message, ig: Ignore) {
    m.id in ig.ids || m.offset in ig.offsets
  }

  function Unignored(ms: seq<Message>, ig: Ignore): seq<Message> {
    if ms == [] then []
    else if Ignored(ms[0], ig) then Unignored(ms[1..], ig)
    else [ms[0]] + Unignored(ms[1..], ig)
  }

  // The messages of a log a node has to handle.
  function Visible(ms: seq<Message>, ig: Ignore, node: string): seq<Message> {
    Mine(Unignored(ms, ig), node)
  }

  // Every message carries its own position.
  ghost predicate Numbered(log: seq<Message>) {
    forall k | 0 <= k < |log| :: log[k].offset == k
  }

  // ---------------------------------------------------------------- the file

  // How the messages of one Send are written: with the generated ids, and offsets that continue the
  // file.
  ghost predicate Stamped(before: nat, msgs: seq<Message>, ids: seq<string>, written: seq<Message>) {
    && |written| == |msgs| == |ids|
    && forall k | 0 <= k < |msgs| :: written[k] == msgs[k].(id := ids[k], offset := before + k)
  }

  class FileStorage {
    var lines: seq<Message>
    var ignore: Ignore

    ghost predicate Valid()
      reads this
    {
      Numbered(lines)
    }

    constructor ()
      ensures Valid() && lines == [] && ignore == Ignore({}, {})
    {
      lines, ignore := [], Ignore({}, {});
    }

    // Appends one message, numbered by the lines before it.
    method SendOne(m: Message, id: string)
      requires Valid()
      modifies this`lines
      ensures Valid() && lines == old(lines) + [m.(id := id, offset := |old(lines)|)]
    {
      lines := lines + [m.(id := id, offset := |lines|)];
    }

    // Appends a batch; `ids` are the identifiers the generator handed out.
    method Send(msgs: seq<Message>, ids: seq<string>)
      requires Valid() && |ids| == |msgs|
      modifies this`lines
      ensures Valid() && |old(lines)| <= |lines| && lines[..|old(lines)|] == old(lines)
      ensures Stamped(|old(lines)|, msgs, ids, lines[|old(lines)|..])
    {
      for i := 0 to |msgs|
        invariant Valid() && |lines| == |old(lines)| + i && lines[..|old(lines)|] == old(lines)
        invariant forall k | 0 <= k < i :: lines[|old(lines)| + k] == msgs[k].(id := ids[k], offset := |old(lines)| + k)
      {
        SendOne(msgs[i], ids[i]);
      }
    }

    // The messages from an offset on, without the ignored ones.
    method GetMessages(from: nat) returns (msgs: seq<Message>)
      ensures msgs == Unignored(lines[if from <= |lines| then from else |lines|..], ignore)
    {
      var offset := from;
      msgs := [];
      ghost var wanted := Unignored(lines[if from <= |lines| then from else |lines|..], ignore);
      for i := 0 to |lines|
        invariant offset == if i <= from then from - i else 0
        invariant i <= from ==> msgs == []
        invariant from <= i ==> msgs + Unignored(lines[i..], ignore) == wanted
      {
        if offset > 0 {
          offset := offset - 1;
          continue;
        }
        var data := lines[i];
        assert lines[i..][0] == data && lines[i..][1..] == lines[i + 1..];
        if data.id !in ignore.ids && data.offset !in ignore.offsets {
          msgs := msgs + [data];
        }
      }
      assert lines[|lines|..] == [];
    }

    // Adds to the ignore lists; `offset` is None for a text that is not a number.
    method IgnoreMessages(messages: seq<string>, offsets: seq<Option<nat>>, useOffset: bool) returns (ok: bool)
      requires |offsets| == |messages|
      modifies this`ignore
      ensures ok <==> !useOffset || forall k | 0 <= k < |offsets| :: offsets[k].Some?
      ensures !useOffset ==> ignore == old(ignore).(ids := old(ignore).ids + set k | 0 <= k < |messages| :: messages[k])
      ensures useOffset && ok ==>
                ignore == old(ignore).(offsets := old(ignore).offsets
                            + set k | 0 <= k < |offsets| && offsets[k].Some? :: offsets[k].value)
    {
      for i := 0 to |messages|
        invariant useOffset ==>
                    ignore == old(ignore).(offsets := old(ignore).offsets
                                + set k | 0 <= k < i && offsets[k].Some? :: offsets[k].value)
        invariant !useOffset ==> ignore == old(ignore).(ids := old(ignore).ids + set k | 0 <= k < i :: messages[k])
        invariant useOffset ==> forall k | 0 <= k < i :: offsets[k].Some?
      {
        if useOffset {
          if offsets[i].None? {
            return false;
          }
          ignore := ignore.(offsets := ignore.offsets + {offsets[i].value});
          continue;
        }
        ignore := ignore.(ids := ignore.ids + {messages[i]});
      }
      return true;
    }
  }

  // ---------------------------------------------------------------- the polling node

  // What a node handles when it reads some messages at the times a clock shows.
  ghost function InputsOf(ms: seq<Message>, clock: Message -> Time, skip: bool): seq<Input> {
    if ms == [] then [] else [Input(ms[0], clock(ms[0]), skip)] + InputsOf(ms[1..], clock, skip)
  }

  // Where a node goes on reading after a poll: behind the last message that was not ignored.
  function NextOffset(offset: nat, got: seq<Message>): nat {
    if got == [] then offset else got[|got| - 1].offset + 1
  }

  // The messages that a reinitialisation replays: up to the first signing.
  function Replayed(ms: seq<Message>, name: string): seq<Message> {
    if ms == [] || ms[0].event == SigningStart then []
    else if Addressed(ms[0], name) then [ms[0]] + Replayed(ms[1..], name)
    else Replayed(ms[1..], name)
  }
}
