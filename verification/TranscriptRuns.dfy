/**
 What a run of stream messages comes to on the screen (tools/playground/lib/transcript.ts): one block for
 each stretch of one stream, with that stretch's text, the first stretch going on a block it can go on.
 */
module TranscriptRuns {
  import opened Wrappers
  import opened Transcripts
  import opened TranscriptAgreement

  function ClassOf(msg: Message): Class
    requires msg.Stream?
  {
    if msg.name == "stderr" then Stderr else Plain
  }

  /** The texts of the messages, one after the other. */
  function Joined(msgs: seq<Message>): string
    requires AllStreams(msgs)
  {
    if msgs == [] then "" else Joined(msgs[..|msgs| - 1]) + msgs[|msgs| - 1].text
  }

  function Flat(parts: seq<seq<Message>>): seq<Message> {
    if parts == [] then [] else Flat(parts[..|parts| - 1]) + parts[|parts| - 1]
  }

  /** A stretch of one stream. */
  predicate Stretch(part: seq<Message>) {
    && part != [] && AllStreams(part)
    && forall i :: 0 <= i < |part| ==> ClassOf(part[i]) == ClassOf(part[0])
  }

  predicate Stretches(parts: seq<seq<Message>>) {
    forall i :: 0 <= i < |parts| ==> Stretch(parts[i])
  }

  /** The messages, cut where the stream changes and nowhere else. */
  predicate CutInto(msgs: seq<Message>, parts: seq<seq<Message>>) {
    && Flat(parts) == msgs && Stretches(parts)
    && forall i, j :: 0 <= i < |parts| && j == i + 1 && j < |parts| ==> ClassOf(parts[i][0]) != ClassOf(parts[j][0])
  }

  /** A block for each stretch, with its text. */
  function Blocks(parts: seq<seq<Message>>, id: nat): seq<Output>
    requires Stretches(parts)
  {
    seq(|parts|, i requires 0 <= i < |parts| => Text(id + i, ClassOf(parts[i][0]), Joined(parts[i]), None, false))
  }

  /** Whether text of this class goes on the last of these outputs: a text of the same class, not a display. */
  predicate GoesOn(outputs: seq<Output>, cls: Class) {
    && outputs != []
    && match outputs[|outputs| - 1]
       case Text(_, c, _, displayId, _) => c == cls && (displayId == None || displayId == Some(""))
       case _ => false
  }

  /** The outputs with the stretches shown after them, and the next id. */
  function Shown(outputs: seq<Output>, parts: seq<seq<Message>>, id: nat): (seq<Output>, nat)
    requires Stretches(parts)
  {
    if parts != [] && GoesOn(outputs, ClassOf(parts[0][0])) then
      var last := outputs[|outputs| - 1];
      (outputs[..|outputs| - 1] + [last.(text := last.text + Joined(parts[0]))] + Blocks(parts[1..], id),
       id + |parts| - 1)
    else (outputs + Blocks(parts, id), id + |parts|)
  }

  /** The parts of one more message: its stretch goes on, or another begins. */
  function OneMore(parts: seq<seq<Message>>, msg: Message): seq<seq<Message>>
    requires msg.Stream? && Stretches(parts)
  {
    var n := |parts| - 1;
    if parts != [] && ClassOf(parts[n][0]) == ClassOf(msg) then parts[..n] + [parts[n] + [msg]] else parts + [[msg]]
  }

  lemma OneMoreCuts(msgs: seq<Message>, parts: seq<seq<Message>>, msg: Message)
    requires msg.Stream? && CutInto(msgs, parts)
    ensures CutInto(msgs + [msg], OneMore(parts, msg))
  {
    if parts != [] && ClassOf(parts[|parts| - 1][0]) == ClassOf(msg) {
      LastGoesOn(msgs, parts, msg);
    } else {
      assert OneMore(parts, msg)[..|parts|] == parts;
    }
  }

  lemma LastGoesOn(msgs: seq<Message>, parts: seq<seq<Message>>, msg: Message)
    requires msg.Stream? && CutInto(msgs, parts) && parts != [] && ClassOf(parts[|parts| - 1][0]) == ClassOf(msg)
    ensures CutInto(msgs + [msg], OneMore(parts, msg))
  {
    var n, after := |parts| - 1, OneMore(parts, msg);
    assert after[..n] == parts[..n];
    assert Flat(after) == msgs + [msg] by {
      assert Flat(after) == Flat(parts[..n]) + (parts[n] + [msg]);
      assert Flat(parts[..n]) + (parts[n] + [msg]) == (Flat(parts[..n]) + parts[n]) + [msg];
    }
    assert Stretch(after[n]) by {
      assert after[n][0] == parts[n][0];
    }
    assert forall i :: 0 <= i < n ==> after[i] == parts[i];
  }

  lemma JoinedOneMore(part: seq<Message>, msg: Message)
    requires AllStreams(part) && msg.Stream?
    ensures Joined(part + [msg]) == Joined(part) + msg.text && Joined([msg]) == msg.text
  {
    assert (part + [msg])[..|part|] == part;
    assert [msg][..0] == [];
  }

  /** What is last on the screen after at least one stretch. */
  lemma LastShown(outputs: seq<Output>, parts: seq<seq<Message>>, id: nat)
    requires Stretches(parts) && parts != []
    ensures var (shown, _) := Shown(outputs, parts, id);
            && shown != [] && shown[|shown| - 1].Text? && shown[|shown| - 1].cls == ClassOf(parts[|parts| - 1][0])
            && !HasDisplay(shown[|shown| - 1].displayId)
  {
  }

  lemma BlocksSnoc(parts: seq<seq<Message>>, id: nat, part: seq<Message>)
    requires Stretches(parts) && Stretch(part)
    ensures Stretches(parts + [part])
    ensures Blocks(parts + [part], id)
         == Blocks(parts, id) + [Text(id + |parts|, ClassOf(part[0]), Joined(part), None, false)]
  {
  }

  lemma BlocksLonger(parts: seq<seq<Message>>, id: nat, msg: Message)
    requires msg.Stream? && Stretches(parts) && parts != [] && ClassOf(parts[|parts| - 1][0]) == ClassOf(msg)
    ensures var k, after := |parts| - 1, OneMore(parts, msg);
            && Stretches(after)
            && Blocks(after, id)
            == Blocks(parts, id)[k := Text(id + k, ClassOf(msg), Joined(parts[k]) + msg.text, None, false)]
  {
    var k := |parts| - 1;
    var init, longer := parts[..k], parts[k] + [msg];
    JoinedOneMore(parts[k], msg);
    assert longer[0] == parts[k][0];
    assert parts == init + [parts[k]] && OneMore(parts, msg) == init + [longer];
    BlocksSnoc(init, id, parts[k]);
    BlocksSnoc(init, id, longer);
  }

  lemma BlocksNext(parts: seq<seq<Message>>, id: nat, msg: Message)
    requires msg.Stream? && Stretches(parts)
    ensures Stretches(parts + [[msg]])
    ensures Blocks(parts + [[msg]], id)
         == Blocks(parts, id) + [Text(id + |parts|, ClassOf(msg), msg.text, None, false)]
  {
    JoinedOneMore([], msg);
    BlocksSnoc(parts, id, [msg]);
  }

  /** What grows is the last of the outputs. */
  lemma LastGrows(outputs: seq<Output>, blocks: seq<Output>, more: seq<Output>, last: Output)
    requires blocks != [] && more == blocks[|blocks| - 1 := last]
    ensures outputs + more == (outputs + blocks)[|outputs + blocks| - 1 := last]
  {
  }

  lemma ShownOnLast(outputs: seq<Output>, parts: seq<seq<Message>>, id: nat)
    requires Stretches(parts) && parts != [] && GoesOn(outputs, ClassOf(parts[0][0]))
    ensures var last := outputs[|outputs| - 1];
            Shown(outputs, parts, id)
            == ((outputs[..|outputs| - 1] + [last.(text := last.text + Joined(parts[0]))]) + Blocks(parts[1..], id),
                id + |parts| - 1)
  {
  }

  lemma SwapLast(init: seq<Output>, x: Output, y: Output)
    ensures var xs := init + [x]; xs[|xs| - 1] == x && xs[|xs| - 1 := y] == init + [y]
  {
  }

  lemma ShownAlone(outputs: seq<Output>, part: seq<Message>, id: nat)
    requires Stretch(part) && GoesOn(outputs, ClassOf(part[0]))
    ensures var last := outputs[|outputs| - 1];
            Shown(outputs, [part], id)
            == (outputs[..|outputs| - 1] + [last.(text := last.text + Joined(part))], id)
  {
    ShownOnLast(outputs, [part], id);
    assert [part][1..] == [] && Blocks([], id) == [];
    var last := outputs[|outputs| - 1];
    var shown := outputs[..|outputs| - 1] + [last.(text := last.text + Joined(part))];
    assert shown + [] == shown;
  }

  /** The last stretch grows, being the one that went on an output of before. */
  lemma FirstLonger(outputs: seq<Output>, part: seq<Message>, id: nat, msg: Message)
    requires msg.Stream? && Stretch(part) && ClassOf(part[0]) == ClassOf(msg) && GoesOn(outputs, ClassOf(part[0]))
    ensures Stretch(part + [msg])
    ensures var (shown, n) := Shown(outputs, [part], id);
            && shown != [] && shown[|shown| - 1].Text?
            && Shown(outputs, [part + [msg]], id)
            == (shown[|shown| - 1 := Extend(false, shown[|shown| - 1], msg.text)], n)
  {
    JoinedOneMore(part, msg);
    assert (part + [msg])[0] == part[0];
    ShownAlone(outputs, part, id);
    ShownAlone(outputs, part + [msg], id);
    var last := outputs[|outputs| - 1];
    var x, y := last.(text := last.text + Joined(part)), last.(text := last.text + (Joined(part) + msg.text));
    assert (last.text + Joined(part)) + msg.text == last.text + (Joined(part) + msg.text);
    SwapLast(outputs[..|outputs| - 1], x, y);
    assert Extend(false, x, msg.text) == y;
  }

  /** The last stretch grows, being a block of its own. */
  lemma BlockLonger(outputs: seq<Output>, parts: seq<seq<Message>>, id: nat, msg: Message)
    requires msg.Stream? && Stretches(parts) && parts != [] && ClassOf(parts[|parts| - 1][0]) == ClassOf(msg)
    ensures var blocks := outputs + Blocks(parts, id);
            && Stretches(OneMore(parts, msg))
            && blocks[|blocks| - 1].Text?
            && outputs + Blocks(OneMore(parts, msg), id)
            == blocks[|blocks| - 1 := Extend(false, blocks[|blocks| - 1], msg.text)]
  {
    var k := |parts| - 1;
    BlocksLonger(parts, id, msg);
    LastGrows(outputs, Blocks(parts, id), Blocks(OneMore(parts, msg), id),
              Text(id + k, ClassOf(msg), Joined(parts[k]) + msg.text, None, false));
  }

  lemma LaterLonger(outputs: seq<Output>, parts: seq<seq<Message>>, id: nat, msg: Message)
    requires msg.Stream? && Stretches(parts) && |parts| > 1 && ClassOf(parts[|parts| - 1][0]) == ClassOf(msg)
    requires GoesOn(outputs, ClassOf(parts[0][0]))
    ensures IsLonger(outputs, parts, id, msg)
  {
    var after, last := OneMore(parts, msg), outputs[|outputs| - 1];
    assert after[1..] == OneMore(parts[1..], msg) && after[0] == parts[0];
    BlockLonger(outputs[..|outputs| - 1] + [last.(text := last.text + Joined(parts[0]))], parts[1..], id, msg);
    ShownOnLast(outputs, parts, id);
    ShownOnLast(outputs, after, id);
  }

  ghost predicate IsLonger(outputs: seq<Output>, parts: seq<seq<Message>>, id: nat, msg: Message)
    requires msg.Stream? && Stretches(parts)
  {
    var (shown, n) := Shown(outputs, parts, id);
    && shown != [] && shown[|shown| - 1].Text?
    && Stretches(OneMore(parts, msg))
    && Shown(outputs, OneMore(parts, msg), id) == (shown[|shown| - 1 := Extend(false, shown[|shown| - 1], msg.text)], n)
  }

  lemma AfterLonger(outputs: seq<Output>, parts: seq<seq<Message>>, id: nat, msg: Message)
    requires msg.Stream? && Stretches(parts) && parts != [] && ClassOf(parts[|parts| - 1][0]) == ClassOf(msg)
    requires !GoesOn(outputs, ClassOf(parts[0][0]))
    ensures IsLonger(outputs, parts, id, msg)
  {
    BlockLonger(outputs, parts, id, msg);
    assert OneMore(parts, msg)[0][0] == parts[0][0];
  }

  /** The last stretch grows. */
  lemma ShownLonger(outputs: seq<Output>, parts: seq<seq<Message>>, id: nat, msg: Message)
    requires msg.Stream? && Stretches(parts) && parts != [] && ClassOf(parts[|parts| - 1][0]) == ClassOf(msg)
    ensures IsLonger(outputs, parts, id, msg)
  {
    if !GoesOn(outputs, ClassOf(parts[0][0])) {
      AfterLonger(outputs, parts, id, msg);
    } else if |parts| == 1 {
      FirstLonger(outputs, parts[0], id, msg);
      assert parts == [parts[0]];
      assert OneMore(parts, msg) == [parts[0] + [msg]];
    } else {
      LaterLonger(outputs, parts, id, msg);
    }
  }

  /** Another stretch begins. */
  lemma ShownNext(outputs: seq<Output>, parts: seq<seq<Message>>, id: nat, msg: Message)
    requires msg.Stream? && Stretches(parts) && parts != [] && ClassOf(parts[|parts| - 1][0]) != ClassOf(msg)
    ensures var (shown, n) := Shown(outputs, parts, id);
            && Stretches(parts + [[msg]])
            && Shown(outputs, parts + [[msg]], id) == (shown + [Block(false, n, ClassOf(msg), msg.text)], n + 1)
  {
    var after := parts + [[msg]];
    var (shown, n) := Shown(outputs, parts, id);
    var block := Block(false, n, ClassOf(msg), msg.text);
    assert after[0] == parts[0];
    BlocksNext(parts, id, msg);
    if GoesOn(outputs, ClassOf(parts[0][0])) {
      assert after[1..] == parts[1..] + [[msg]];
      BlocksNext(parts[1..], id, msg);
      ShownOnLast(outputs, parts, id);
      ShownOnLast(outputs, after, id);
      var last := outputs[|outputs| - 1];
      var first := outputs[..|outputs| - 1] + [last.(text := last.text + Joined(parts[0]))];
      assert first + (Blocks(parts[1..], id) + [block]) == (first + Blocks(parts[1..], id)) + [block];
    } else {
      assert outputs + (Blocks(parts, id) + [block]) == (outputs + Blocks(parts, id)) + [block];
    }
  }

  /** The first stretch begins. */
  lemma FirstShown(outputs: seq<Output>, id: nat, msg: Message)
    requires msg.Stream?
    ensures Shown(outputs, [], id) == (outputs, id)
    ensures StreamOutputs(false, outputs, id, msg) == Shown(outputs, [[msg]], id)
  {
    JoinedOneMore([], msg);
    assert [[msg]][1..] == [];
    assert Shown(outputs, [], id).0 == outputs;
    assert Stretch([msg]);
    assert StreamOutputs(false, outputs, id, msg).0 == Shown(outputs, [[msg]], id).0;
  }

  lemma ShownOneMore(outputs: seq<Output>, parts: seq<seq<Message>>, id: nat, msg: Message)
    requires msg.Stream? && Stretches(parts)
    ensures Stretches(OneMore(parts, msg))
    ensures var (shown, n) := Shown(outputs, parts, id);
            StreamOutputs(false, shown, n, msg) == Shown(outputs, OneMore(parts, msg), id)
  {
    var (shown, n) := Shown(outputs, parts, id);
    JoinedOneMore([], msg);
    if parts == [] {
      assert OneMore(parts, msg) == [[msg]];
      FirstShown(outputs, id, msg);
    } else {
      LastShown(outputs, parts, id);
      if ClassOf(parts[|parts| - 1][0]) == ClassOf(msg) {
        ShownLonger(outputs, parts, id, msg);
      } else {
        ShownNext(outputs, parts, id, msg);
      }
    }
  }

  /** A run of stream messages is cut in one way, and shown so. */
  lemma {:induction false} RunIsShown(outputs: seq<Output>, id: nat, msgs: seq<Message>)
    returns (parts: seq<seq<Message>>)
    requires AllStreams(msgs)
    ensures CutInto(msgs, parts) && RunOutputs(false, outputs, id, msgs) == Shown(outputs, parts, id)
  {
    if msgs == [] {
      parts := [];
      assert outputs + Blocks([], id) == outputs;
    } else {
      var init, msg := msgs[..|msgs| - 1], msgs[|msgs| - 1];
      var before := RunIsShown(outputs, id, init);
      parts := OneMore(before, msg);
      OneMoreCuts(init, before, msg);
      ShownOneMore(outputs, before, id, msg);
      assert init + [msg] == msgs;
    }
  }

  /** Every current cell shows `outputs`, and is not to be cleared; no other cell changes. */
  ghost predicate ShowsInstead(t: Transcript, u: Transcript, outputs: seq<Output>) {
    && |u.cells| == |t.cells| && u.currentKey == t.currentKey
    && forall i :: 0 <= i < |t.cells| ==>
         u.cells[i] == if IsCurrent(t, i) then t.cells[i].(outputs := outputs, clearOnNext := false) else t.cells[i]
  }

  /**
   Whatever a cell shows, a run of stream messages adds a block for each stretch of one stream, with the
   texts of that stretch one after the other, the first going on the last output if that is a text of the
   same stream; the blocks have the next ids.
   */
  lemma StreamsShowTheirText(t: Transcript, k: nat, msgs: seq<Message>) returns (parts: seq<seq<Message>>)
    requires CurrentAlike(t) && IsCurrent(t, k) && AllStreams(msgs) && msgs != []
    ensures CutInto(msgs, parts)
    ensures var (shown, n) := Shown(Visible(t.cells[k]), parts, t.nextOutputId);
            var u := Fold(false, t, msgs);
            ShowsInstead(t, u, shown) && u.nextOutputId == n
  {
    var first := FindCell(t.cells, t.currentKey).value;
    assert IsCurrent(t, first);
    parts := RunIsShown(Visible(t.cells[k]), t.nextOutputId, msgs);
    FoldOnCurrent(false, t, first, msgs);
  }
}
