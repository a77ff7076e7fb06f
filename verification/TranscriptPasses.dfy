/**
 applyMessages() and applyStreams() as the loops they are (tools/playground/lib/transcript.ts),
 proved to compute the one-pass form and with it to keep its promise.
 */
module TranscriptPasses {
  import opened Wrappers
  import opened Transcripts
  import opened TranscriptAgreement

  /** The stream messages msgs[from..to), in one pass over a copy of the current cell's outputs. */
  method ApplyStreams(t: Transcript, msgs: seq<Message>, from: nat, to: nat) returns (r: Transcript)
    requires from <= to <= |msgs| && AllStreams(msgs[from..to])
    ensures r == Transcripts.ApplyStreams(t, msgs[from..to])
  {
    var k := FindCell(t.cells, t.currentKey);
    if k.None? {
      return t;
    }
    var cell := t.cells[k.value];
    var outputs := if cell.clearOnNext then [] else cell.outputs;
    var nextOutputId: nat, open: Option<nat>, text := t.nextOutputId, None, "";
    for i := from to to
      invariant AllStreams(msgs[from..i])
      invariant Pass(outputs, open, text, nextOutputId) == Chunks(OpenPass(t, cell), msgs[from..i])
      invariant open.Some? ==> open.value == |outputs| - 1 && outputs != [] && outputs[open.value].Text?
    {
      NextChunk(OpenPass(t, cell), msgs, from, i, to);
      outputs, open, text, nextOutputId := AddChunk(outputs, open, text, nextOutputId, msgs[i].name, msgs[i].text);
    }
    outputs := CloseBlock(outputs, open, text, nextOutputId);
    r := MapCell(t, t.currentKey, (c: Cell) => WithOutputs(c, outputs)).(nextOutputId := nextOutputId);
  }

  /** One chunk: it goes on the last block, or closes it and opens another. */
  method AddChunk(outputs: seq<Output>, open: Option<nat>, text: string, nextId: nat, name: string, chunk: string)
    returns (outputs': seq<Output>, open': Option<nat>, text': string, nextId': nat)
    requires open.Some? ==> open.value == |outputs| - 1 && outputs != [] && outputs[open.value].Text?
    ensures Pass(outputs', open', text', nextId') == Chunk(Pass(outputs, open, text, nextId), name, chunk)
    ensures open'.Some? && open'.value == |outputs'| - 1 && outputs' != [] && outputs'[open'.value].Text?
  {
    var cls := StreamClass(name);
    outputs', open', text', nextId' := outputs, open, text, nextId;
    if Continues(outputs, cls) {
      if open.None? {
        open', text' := Some(|outputs| - 1), outputs[|outputs| - 1].text;
      }
      text' := text' + chunk;
    } else {
      outputs' := CloseBlock(outputs, open, text, nextId);
      outputs' := outputs' + [Text(nextId, cls, "", None, false)];
      nextId', open', text' := nextId + 1, Some(|outputs'| - 1), chunk;
    }
  }

  /** Caps the open block, once. */
  method CloseBlock(outputs: seq<Output>, open: Option<nat>, text: string, nextOutputId: nat)
    returns (closed: seq<Output>)
    requires open.Some? ==> open.value < |outputs| && outputs[open.value].Text?
    ensures closed == Close(Pass(outputs, open, text, nextOutputId)).outputs
    ensures |closed| == |outputs|
  {
    if open.None? {
      return outputs;
    }
    var last := outputs[open.value];
    closed := outputs[open.value :=
        last.(text := CapText(true, text), truncated := last.truncated || OverCap(true, text))];
  }

  /** Several messages in order. */
  method ApplyMessages(t: Transcript, msgs: seq<Message>) returns (r: Transcript)
    ensures r == ApplyAll(t, msgs)
    ensures CurrentAlike(t) ==> TranscriptsAgree(Fold(true, t, msgs), r, Fold(false, t, msgs))
  {
    r := t;
    var i := 0;
    while i < |msgs|
      invariant 0 <= i <= |msgs|
      invariant ApplyAll(r, msgs[i..]) == ApplyAll(t, msgs)
    {
      if !msgs[i].Stream? {
        OneByOne(r, msgs, i);
        r := Apply(true, r, msgs[i]);
        i := i + 1;
        continue;
      }
      var end := i;
      while end < |msgs| && msgs[end].Stream?
        invariant i <= end <= |msgs| && AllStreams(msgs[i..end])
      {
        assert msgs[i..end + 1] == msgs[i..end] + [msgs[end]];
        end := end + 1;
      }
      InOnePass(r, msgs, i, end);
      r := ApplyStreams(r, msgs, i, end);
      i := end;
    }
    if CurrentAlike(t) {
      OnePassAgrees(t, msgs);
    }
  }

  lemma OneChunkMore(p: Pass, msgs: seq<Message>, msg: Message)
    requires AllStreams(msgs) && msg.Stream?
    ensures AllStreams(msgs + [msg])
    ensures Chunks(p, msgs + [msg]) == Chunk(Chunks(p, msgs), msg.name, msg.text)
  {
    assert (msgs + [msg])[..|msgs|] == msgs;
  }

  lemma {:induction false} RunEndsThere(msgs: seq<Message>, i: nat, end: nat)
    requires i <= end <= |msgs| && AllStreams(msgs[i..end])
    requires end < |msgs| ==> !msgs[end].Stream?
    ensures StreamRun(msgs[i..]) == end - i
    decreases end - i
  {
    if i < end {
      assert msgs[i] == msgs[i..end][0] && msgs[i + 1..end] == msgs[i..end][1..];
      RunEndsThere(msgs, i + 1, end);
      assert msgs[i..][1..] == msgs[i + 1..];
    }
  }

  lemma NextChunk(p: Pass, msgs: seq<Message>, from: nat, i: nat, to: nat)
    requires from <= i < to <= |msgs| && AllStreams(msgs[from..to]) && AllStreams(msgs[from..i])
    ensures msgs[i].Stream? && AllStreams(msgs[from..i + 1])
    ensures Chunks(p, msgs[from..i + 1]) == Chunk(Chunks(p, msgs[from..i]), msgs[i].name, msgs[i].text)
  {
    assert msgs[i] == msgs[from..to][i - from];
    OneChunkMore(p, msgs[from..i], msgs[i]);
    assert msgs[from..i + 1] == msgs[from..i] + [msgs[i]];
  }

  lemma OneByOne(t: Transcript, msgs: seq<Message>, i: nat)
    requires i < |msgs| && !msgs[i].Stream?
    ensures ApplyAll(t, msgs[i..]) == ApplyAll(Apply(true, t, msgs[i]), msgs[i + 1..])
  {
    assert msgs[i..][1..] == msgs[i + 1..];
  }

  lemma InOnePass(t: Transcript, msgs: seq<Message>, i: nat, end: nat)
    requires i < end <= |msgs| && AllStreams(msgs[i..end]) && (end < |msgs| ==> !msgs[end].Stream?)
    ensures ApplyAll(t, msgs[i..]) == ApplyAll(Transcripts.ApplyStreams(t, msgs[i..end]), msgs[end..])
  {
    RunEndsThere(msgs, i, end);
    assert msgs[i] == msgs[i..end][0];
    assert msgs[i..][..end - i] == msgs[i..end] && msgs[i..][end - i..] == msgs[end..];
  }
}
