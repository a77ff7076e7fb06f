/**
 The promise of applyMessages() (tools/playground/lib/transcript.ts): a list of messages applied in
 one pass gives the transcript that applying them one by one gives, up to where the kept tail of a
 truncated block starts. Three transcripts are followed side by side: one message at a time, in one
 pass, and one that is never capped, whose blocks hold the full text.
 */
module TranscriptAgreement {
  import opened Wrappers
  import opened Transcripts
  import F = Folds

  const SLACK: nat := 2000

  predicate IsSuffix(a: string, full: string) {
    |a| <= |full| && forall i :: 0 <= i < |a| ==> a[i] == full[|full| - |a| + i]
  }

  /** A block that was cut keeps at least the cap less the 2000 characters to a line boundary. */
  predicate CutToSize(text: string) {
    MAX_OUTPUT_CHARS - SLACK <= |text| <= MAX_OUTPUT_CHARS
  }

  /** A block and its full text: the same while that is within the cap; a tail of it if not. */
  predicate TailOf(o: Output, full: Output)
    requires o.Text? && full.Text?
  {
    && IsSuffix(o.text, full.text)
    && (|full.text| <= MAX_OUTPUT_CHARS ==> o == full)
    && (o.text != full.text ==> o.truncated && CutToSize(o.text))
  }

  /** Two blocks: the same but for where their tails start, and that only when both were cut. */
  predicate SameButForTails(a: Output, b: Output)
    requires a.Text? && b.Text?
  {
    && a.id == b.id && a.cls == b.cls && a.displayId == b.displayId && a.truncated == b.truncated
    && (a.text != b.text ==> a.truncated && CutToSize(a.text) && CutToSize(b.text))
  }

  predicate Agree(a: Output, b: Output, full: Output) {
    if full.Text? then
      && a.Text? && b.Text?
      && a.id == full.id && a.cls == full.cls && a.displayId == full.displayId
      && SameButForTails(a, b) && TailOf(a, full) && TailOf(b, full)
    else a == b == full
  }

  predicate OutputsAgree(a: seq<Output>, b: seq<Output>, full: seq<Output>) {
    && |a| == |b| == |full|
    && forall i {:trigger Agree(a[i], b[i], full[i])} :: 0 <= i < |full| ==> Agree(a[i], b[i], full[i])
  }

  predicate CellsAgree(a: Cell, b: Cell, full: Cell) {
    && a == full.(outputs := a.outputs) && b == full.(outputs := b.outputs)
    && OutputsAgree(a.outputs, b.outputs, full.outputs)
  }

  predicate TranscriptsAgree(a: Transcript, b: Transcript, full: Transcript) {
    && a == full.(cells := a.cells) && b == full.(cells := b.cells)
    && |a.cells| == |b.cells| == |full.cells|
    && forall i :: 0 <= i < |full.cells| ==> CellsAgree(a.cells[i], b.cells[i], full.cells[i])
  }

  // ----- capping two tails of the same text -----

  lemma KeptIsCutToSize(text: string)
    requires |text| > MAX_OUTPUT_CHARS
    ensures CutToSize(Kept(text)) && IsSuffix(Kept(text), text)
  {
  }

  /** Two texts over the cap with the same full text are cut alike. */
  lemma KeptOfSuffix(a: string, full: string)
    requires IsSuffix(a, full) && |a| > MAX_OUTPUT_CHARS
    ensures Kept(a) == Kept(full)
  {
    assert a[|a| - MAX_OUTPUT_CHARS..] == full[|full| - MAX_OUTPUT_CHARS..];
  }

  lemma SuffixAppend(a: string, full: string, chunk: string)
    requires IsSuffix(a, full)
    ensures IsSuffix(a + chunk, full + chunk)
  {
  }

  lemma SuffixTransitive(a: string, b: string, full: string)
    requires IsSuffix(a, b) && IsSuffix(b, full)
    ensures IsSuffix(a, full)
  {
  }

  /** What capping `raw` on top of a flag gives, and a block with that text. */
  function Capped(last: Output, raw: string): Output
    requires last.Text?
  {
    last.(text := CapText(true, raw), truncated := last.truncated || OverCap(true, raw))
  }

  /** A block to be capped from `raw` will be a tail of the full text, now and with more appended. */
  predicate WillBeTail(last: Output, raw: string, full: Output)
    requires last.Text? && full.Text?
  {
    && IsSuffix(raw, full.text)
    && (|full.text| <= MAX_OUTPUT_CHARS ==> last.(text := raw) == full)
    && (raw != full.text ==> Sized(last, raw))
  }

  predicate Sized(last: Output, raw: string)
    requires last.Text?
  {
    |raw| > MAX_OUTPUT_CHARS || (last.truncated && CutToSize(raw))
  }

  lemma WillBeTailIff(last: Output, raw: string, full: Output)
    requires last.Text? && full.Text? && IsSuffix(raw, full.text)
    ensures TailOf(Capped(last, raw), full) <==> WillBeTail(last, raw, full)
  {
    if |raw| > MAX_OUTPUT_CHARS {
      KeptIsCutToSize(raw);
      SuffixTransitive(Kept(raw), raw, full.text);
    }
  }

  lemma WillStayTail(last: Output, raw: string, full: Output, chunk: string)
    requires last.Text? && full.Text? && WillBeTail(last, raw, full)
    ensures WillBeTail(last, raw + chunk, full.(text := full.text + chunk))
  {
    SuffixAppend(raw, full.text, chunk);
  }

  /** Two blocks to be capped from these texts will be the same but for their tails. */
  predicate WillBeSame(x: Output, a: string, y: Output, b: string)
    requires x.Text? && y.Text?
  {
    && x.id == y.id && x.cls == y.cls && x.displayId == y.displayId
    && (x.truncated || |a| > MAX_OUTPUT_CHARS) == (y.truncated || |b| > MAX_OUTPUT_CHARS)
    && (a != b ==> Sized(x, a) && Sized(y, b))
  }

  lemma WillBeSameAfter(a: Output, last: Output, raw: string, chunk: string)
    requires a.Text? && last.Text? && SameButForTails(a, Capped(last, raw))
    ensures WillBeSame(a, a.text + chunk, last, raw + chunk)
  {
    if |raw| > MAX_OUTPUT_CHARS {
      KeptIsCutToSize(raw);
    }
  }

  lemma CappedSame(x: Output, a: string, y: Output, b: string, full: string)
    requires x.Text? && y.Text? && WillBeSame(x, a, y, b)
    requires IsSuffix(a, full) && IsSuffix(b, full)
    ensures SameButForTails(Capped(x, a), Capped(y, b))
  {
    if |a| > MAX_OUTPUT_CHARS {
      KeptIsCutToSize(a);
      KeptOfSuffix(a, full);
    }
    if |b| > MAX_OUTPUT_CHARS {
      KeptIsCutToSize(b);
      KeptOfSuffix(b, full);
    }
  }

  /** One more chunk on blocks that agree, the second one not capped since its text was `raw`. */
  lemma ExtendAgree(a: Output, last: Output, raw: string, full: Output, chunk: string)
    requires a.Text? && last.Text? && full.Text? && IsSuffix(raw, full.text)
    requires Agree(a, Capped(last, raw), full)
    ensures Agree(Extend(true, a, chunk), Capped(last, raw + chunk), Extend(false, full, chunk))
    ensures IsSuffix(raw + chunk, full.text + chunk)
  {
    var full' := full.(text := full.text + chunk);
    WillBeTailIff(last, raw, full);
    WillStayTail(last, raw, full, chunk);
    WillBeTailIff(last, raw + chunk, full');
    assert WillBeTail(a, a.text, full);
    WillStayTail(a, a.text, full, chunk);
    WillBeTailIff(a, a.text + chunk, full');
    WillBeSameAfter(a, last, raw, chunk);
    CappedSame(a, a.text + chunk, last, raw + chunk, full'.text);
  }

  /** The same when the second block has been whole until now. */
  lemma ReopenAgree(a: Output, last: Output, full: Output, chunk: string)
    requires a.Text? && last.Text? && full.Text? && Agree(a, last, full)
    ensures Agree(Extend(true, a, chunk), Capped(last, last.text + chunk), Extend(false, full, chunk))
    ensures IsSuffix(last.text + chunk, full.text + chunk)
  {
    var full' := full.(text := full.text + chunk);
    assert WillBeTail(a, a.text, full) && WillBeTail(last, last.text, full);
    WillStayTail(a, a.text, full, chunk);
    WillStayTail(last, last.text, full, chunk);
    WillBeTailIff(a, a.text + chunk, full');
    WillBeTailIff(last, last.text + chunk, full');
    CappedSame(a, a.text + chunk, last, last.text + chunk, full'.text);
  }

  lemma BlockAgree(id: nat, cls: Class, chunk: string)
    ensures Agree(Block(true, id, cls, chunk), Capped(Text(id, cls, "", None, false), chunk),
            Block(false, id, cls, chunk))
  {
    WillBeTailIff(Text(id, cls, "", None, false), chunk, Block(false, id, cls, chunk));
  }

  // ----- a run of stream messages on one cell's outputs -----

  /** What one stream message does to the outputs of the current cell, and to the next id. */
  function StreamOutputs(capped: bool, outputs: seq<Output>, id: nat, msg: Message): (seq<Output>, nat)
    requires msg.Stream?
  {
    var cls := StreamClass(msg.name);
    if Continues(outputs, cls) then
      (outputs[|outputs| - 1 := Extend(capped, outputs[|outputs| - 1], msg.text)], id)
    else (outputs + [Block(capped, id, cls, msg.text)], id + 1)
  }

  function RunOutputs(capped: bool, outputs: seq<Output>, id: nat, msgs: seq<Message>): (seq<Output>, nat)
    requires AllStreams(msgs)
  {
    if msgs == [] then (outputs, id)
    else
      var (before, n) := RunOutputs(capped, outputs, id, msgs[..|msgs| - 1]);
      StreamOutputs(capped, before, n, msgs[|msgs| - 1])
  }

  /** The open block is the last one, and what it will be capped from is a tail of its full text. */
  predicate OpenAtEnd(p: Pass, full: seq<Output>) {
    p.open.Some? ==>
      && p.open.value == |p.outputs| - 1 == |full| - 1 && p.outputs != []
      && p.outputs[p.open.value].Text? && full[p.open.value].Text?
      && IsSuffix(p.text, full[p.open.value].text)
  }

  lemma ClosedLast(p: Pass, full: seq<Output>)
    requires OpenAtEnd(p, full) && p.open.Some?
    ensures Close(p).outputs == p.outputs[|p.outputs| - 1 := Capped(p.outputs[|p.outputs| - 1], p.text)]
  {
  }

  lemma ContinuesAlike(a: seq<Output>, p: Pass, full: seq<Output>, cls: Class)
    requires OpenAtEnd(p, full) && OutputsAgree(a, Close(p).outputs, full)
    ensures Continues(p.outputs, cls) == Continues(a, cls) == Continues(full, cls)
  {
    if full != [] {
      assert Agree(a[|full| - 1], Close(p).outputs[|full| - 1], full[|full| - 1]);
    }
  }

  lemma LastAgrees(a: seq<Output>, b: seq<Output>, full: seq<Output>, x: Output, y: Output, z: Output)
    requires OutputsAgree(a, b, full) && full != [] && Agree(x, y, z)
    ensures OutputsAgree(a[|a| - 1 := x], b[|b| - 1 := y], full[|full| - 1 := z])
  {
  }

  /** The last block grows, the second list's one having been capped from `raw`. */
  lemma LastGrows(a: seq<Output>, outputs: seq<Output>, raw: string, full: seq<Output>, chunk: string)
    requires |outputs| == |full| > 0 && outputs[|full| - 1].Text? && full[|full| - 1].Text?
    requires OutputsAgree(a, outputs[|full| - 1 := Capped(outputs[|full| - 1], raw)], full) && a[|a| - 1].Text?
    requires IsSuffix(raw, full[|full| - 1].text)
    ensures var n := |full| - 1;
            && OutputsAgree(a[n := Extend(true, a[n], chunk)], outputs[n := Capped(outputs[n], raw + chunk)],
                            full[n := Extend(false, full[n], chunk)])
            && IsSuffix(raw + chunk, full[n].text + chunk)
  {
    var n := |full| - 1;
    var b, last := outputs[n := Capped(outputs[n], raw)], outputs[n];
    assert Agree(a[n], b[n], full[n]);
    ExtendAgree(a[n], last, raw, full[n], chunk);
    LastAgrees(a, b, full, Extend(true, a[n], chunk), Capped(last, raw + chunk), Extend(false, full[n], chunk));
    PutTwice(outputs, n, Capped(last, raw), Capped(last, raw + chunk));
  }

  lemma PutTwice(outputs: seq<Output>, n: nat, x: Output, y: Output)
    requires n < |outputs|
    ensures outputs[n := x][n := y] == outputs[n := y]
  {
  }

  /** The chunk goes on the open block. */
  lemma OpenContinues(a: seq<Output>, p: Pass, full: seq<Output>, chunk: string)
    requires OpenAtEnd(p, full) && OutputsAgree(a, Close(p).outputs, full) && p.open.Some? && a[|a| - 1].Text?
    ensures var n, p' := |full| - 1, p.(text := p.text + chunk);
            && OpenAtEnd(p', full[n := Extend(false, full[n], chunk)])
            && OutputsAgree(a[n := Extend(true, a[n], chunk)], Close(p').outputs,
                 full[n := Extend(false, full[n], chunk)])
  {
    ClosedLast(p, full);
    LastGrows(a, p.outputs, p.text, full, chunk);
    ClosedLast(p.(text := p.text + chunk), full[|full| - 1 := Extend(false, full[|full| - 1], chunk)]);
  }

  /** The chunk reopens the last block. */
  lemma LastReopens(a: seq<Output>, p: Pass, full: seq<Output>, chunk: string)
    requires OutputsAgree(a, p.outputs, full) && full != []
    requires a[|a| - 1].Text? && p.outputs[|a| - 1].Text? && full[|a| - 1].Text?
    ensures var n := |full| - 1;
            var p' := p.(open := Some(n), text := p.outputs[n].text + chunk);
            && OpenAtEnd(p', full[n := Extend(false, full[n], chunk)])
            && OutputsAgree(a[n := Extend(true, a[n], chunk)], Close(p').outputs,
                 full[n := Extend(false, full[n], chunk)])
  {
    var n := |full| - 1;
    var p' := p.(open := Some(n), text := p.outputs[n].text + chunk);
    assert Agree(a[n], p.outputs[n], full[n]);
    ReopenAgree(a[n], p.outputs[n], full[n], chunk);
    LastAgrees(a, p.outputs, full, Extend(true, a[n], chunk), Capped(p.outputs[n], p'.text),
        Extend(false, full[n], chunk));
    ClosedLast(p', full[n := Extend(false, full[n], chunk)]);
  }

  lemma ContinuedOutputs(capped: bool, outputs: seq<Output>, id: nat, msg: Message)
    requires msg.Stream? && Continues(outputs, StreamClass(msg.name))
    ensures StreamOutputs(capped, outputs, id, msg).0
         == outputs[|outputs| - 1 := Extend(capped, outputs[|outputs| - 1], msg.text)]
  {
  }

  lemma ContinuedAgree(a: seq<Output>, p: Pass, full: seq<Output>, id: nat, msg: Message)
    requires OpenAtEnd(p, full) && OutputsAgree(a, Close(p).outputs, full) && msg.Stream?
    requires Continues(full, StreamClass(msg.name)) && Continues(a, StreamClass(msg.name))
    requires Continues(p.outputs, StreamClass(msg.name))
    ensures var p', full' := Chunk(p, msg.name, msg.text), StreamOutputs(false, full, id, msg).0;
            OpenAtEnd(p', full') && OutputsAgree(StreamOutputs(true, a, id, msg).0, Close(p').outputs, full')
  {
    ContinuedOutputs(true, a, id, msg);
    ContinuedOutputs(false, full, id, msg);
    if p.open.Some? {
      OpenContinues(a, p, full, msg.text);
    } else {
      LastReopens(a, p, full, msg.text);
    }
  }

  lemma NewBlockAgree(a: seq<Output>, p: Pass, full: seq<Output>, msg: Message)
    requires OpenAtEnd(p, full) && OutputsAgree(a, Close(p).outputs, full) && msg.Stream?
    requires !Continues(full, StreamClass(msg.name))
    ensures var p', full' := Chunk(p, msg.name, msg.text), StreamOutputs(false, full, p.nextId, msg).0;
            OpenAtEnd(p', full') && OutputsAgree(StreamOutputs(true, a, p.nextId, msg).0, Close(p').outputs, full')
  {
    ContinuesAlike(a, p, full, StreamClass(msg.name));
    BlockAgree(p.nextId, StreamClass(msg.name), msg.text);
    ClosedLast(Chunk(p, msg.name, msg.text), StreamOutputs(false, full, p.nextId, msg).0);
  }

  /** A run of stream messages: one by one, in one pass, and never capped. */
  lemma {:induction false} RunAgrees(a: seq<Output>, b: seq<Output>, full: seq<Output>, id: nat, msgs: seq<Message>)
    requires AllStreams(msgs) && OutputsAgree(a, b, full)
    ensures var p := Chunks(Pass(b, None, "", id), msgs);
            var (a', n) := RunOutputs(true, a, id, msgs);
            var (full', m) := RunOutputs(false, full, id, msgs);
            OpenAtEnd(p, full') && OutputsAgree(a', Close(p).outputs, full') && n == m == p.nextId
  {
    if msgs != [] {
      var init, msg := msgs[..|msgs| - 1], msgs[|msgs| - 1];
      RunAgrees(a, b, full, id, init);
      var p := Chunks(Pass(b, None, "", id), init);
      var (a', n) := RunOutputs(true, a, id, init);
      var (full', m) := RunOutputs(false, full, id, init);
      ContinuesAlike(a', p, full', StreamClass(msg.name));
      if Continues(full', StreamClass(msg.name)) {
        ContinuedAgree(a', p, full', n, msg);
      } else {
        NewBlockAgree(a', p, full', msg);
      }
    }
  }

  // ----- one message on transcripts -----

  /** What of a cell's outputs the next one goes after. */
  function Visible(c: Cell): seq<Output> {
    if c.clearOnNext then [] else c.outputs
  }

  predicate IsCurrent(t: Transcript, i: nat) {
    i < |t.cells| && Some(t.cells[i].key) == t.currentKey
  }

  /** The cells with the current key, where there is more than one, look alike. */
  predicate CurrentAlike(t: Transcript) {
    forall i, j :: 0 <= i < |t.cells| && 0 <= j < |t.cells| && IsCurrent(t, i) && IsCurrent(t, j) ==>
      Visible(t.cells[i]) == Visible(t.cells[j])
  }

  /** Distinct keys, as the playground gives them, are enough. */
  lemma DistinctKeysAreAlike(t: Transcript)
    requires forall i, j :: 0 <= i < j < |t.cells| ==> t.cells[i].key != t.cells[j].key
    ensures CurrentAlike(t)
  {
    forall i, j | 0 <= i < |t.cells| && 0 <= j < |t.cells| && IsCurrent(t, i) && IsCurrent(t, j) ensures i == j {
    }
  }

  lemma MapAgree(a: Transcript, b: Transcript, full: Transcript, key: Option<string>,
                 f: Cell -> Cell, g: Cell -> Cell, h: Cell -> Cell)
    requires TranscriptsAgree(a, b, full)
    requires forall i :: 0 <= i < |full.cells| ==> CellsAgree(f(a.cells[i]), g(b.cells[i]), h(full.cells[i]))
    ensures TranscriptsAgree(MapCell(a, key, f), MapCell(b, key, g), MapCell(full, key, h))
  {
  }

  lemma FindAlike(a: seq<Cell>, b: seq<Cell>, key: Option<string>)
    requires |a| == |b| && forall i :: 0 <= i < |a| ==> a[i].key == b[i].key
    ensures FindCell(a, key) == FindCell(b, key)
  {
    if a != [] {
      FindAlike(a[1..], b[1..], key);
    }
  }

  lemma FindAgree(a: Transcript, b: Transcript, full: Transcript)
    requires TranscriptsAgree(a, b, full)
    ensures FindCell(a.cells, a.currentKey) == FindCell(b.cells, b.currentKey) == FindCell(full.cells, full.currentKey)
  {
    FindAlike(a.cells, full.cells, full.currentKey);
    FindAlike(b.cells, full.cells, full.currentKey);
  }

  lemma AddAgree(a: Cell, b: Cell, full: Cell, o: Output)
    requires CellsAgree(a, b, full)
    ensures CellsAgree(AddOutput(a, o), AddOutput(b, o), AddOutput(full, o))
  {
    var a', b', full' := AddOutput(a, o), AddOutput(b, o), AddOutput(full, o);
    assert Agree(o, o, o);
    assert OutputsAgree(a'.outputs, b'.outputs, full'.outputs);
  }

  lemma PushAgree(a: Transcript, b: Transcript, full: Transcript, o: Output)
    requires TranscriptsAgree(a, b, full)
    ensures TranscriptsAgree(PushOutput(a, o), PushOutput(b, o), PushOutput(full, o))
  {
    FindAgree(a, b, full);
    var numbered := o.(id := full.nextOutputId);
    var f := (c: Cell) => AddOutput(c, numbered);
    forall i | 0 <= i < |full.cells|
      ensures CellsAgree(f(a.cells[i]), f(b.cells[i]), f(full.cells[i]))
    {
      AddAgree(a.cells[i], b.cells[i], full.cells[i], numbered);
    }
    MapAgree(a, b, full, full.currentKey, f, f, f);
  }

  lemma RedisplayAgree(a: Cell, b: Cell, full: Cell, mime: Mime, displayId: string)
    requires CellsAgree(a, b, full)
    ensures CellsAgree(RedisplayIn(a, mime, displayId), RedisplayIn(b, mime, displayId),
            RedisplayIn(full, mime, displayId))
  {
    forall i | 0 <= i < |full.outputs|
      ensures Agree(Redisplay(a.outputs[i], mime, displayId), Redisplay(b.outputs[i], mime, displayId),
                    Redisplay(full.outputs[i], mime, displayId))
    {
      assert Agree(a.outputs[i], b.outputs[i], full.outputs[i]);
    }
  }

  lemma ShownAlike(a: Transcript, b: Transcript, displayId: string)
    requires |a.cells| == |b.cells|
    requires forall i :: 0 <= i < |a.cells| ==> |a.cells[i].outputs| == |b.cells[i].outputs|
    requires forall i, j :: 0 <= i < |a.cells| && 0 <= j < |a.cells[i].outputs| ==>
               Shows(a.cells[i].outputs[j], displayId) == Shows(b.cells[i].outputs[j], displayId)
    ensures ShownIn(a, displayId) == ShownIn(b, displayId)
  {
  }

  lemma ShownAgree(a: Transcript, b: Transcript, full: Transcript, displayId: string)
    requires TranscriptsAgree(a, b, full)
    ensures ShownIn(a, displayId) == ShownIn(b, displayId) == ShownIn(full, displayId)
  {
    forall i, j | 0 <= i < |full.cells| && 0 <= j < |full.cells[i].outputs|
      ensures CellsAgree(a.cells[i], b.cells[i], full.cells[i])
      ensures Agree(a.cells[i].outputs[j], b.cells[i].outputs[j], full.cells[i].outputs[j])
    {
      assert CellsAgree(a.cells[i], b.cells[i], full.cells[i]);
    }
    ShownAlike(a, full, displayId);
    ShownAlike(b, full, displayId);
  }

  lemma UpdateAgree(a: Transcript, b: Transcript, full: Transcript, mime: Mime, displayId: Option<string>)
    requires TranscriptsAgree(a, b, full)
    ensures TranscriptsAgree(ApplyUpdate(a, mime, displayId), ApplyUpdate(b, mime, displayId),
                             ApplyUpdate(full, mime, displayId))
  {
    if HasDisplay(displayId) {
      ShownAgree(a, b, full, displayId.value);
      forall i | 0 <= i < |full.cells|
        ensures CellsAgree(RedisplayIn(a.cells[i], mime, displayId.value),
                           RedisplayIn(b.cells[i], mime, displayId.value),
                           RedisplayIn(full.cells[i], mime, displayId.value))
      {
        RedisplayAgree(a.cells[i], b.cells[i], full.cells[i], mime, displayId.value);
      }
    }
    PushAgree(a, b, full, WithDisplay(mime, displayId));
  }

  lemma ClearAgree(a: Transcript, b: Transcript, full: Transcript, wait: bool)
    requires TranscriptsAgree(a, b, full)
    ensures var clear := ClearOutput(wait);
            TranscriptsAgree(Apply(true, a, clear), Apply(true, b, clear), Apply(false, full, clear))
  {
    var f := (c: Cell) => if wait then c.(clearOnNext := true) else c.(outputs := []);
    forall i | 0 <= i < |full.cells|
      ensures CellsAgree(f(a.cells[i]), f(b.cells[i]), f(full.cells[i]))
    {
      assert CellsAgree(a.cells[i], b.cells[i], full.cells[i]);
    }
    MapAgree(a, b, full, full.currentKey, f, f, f);
  }

  /** Any message but a stream one. */
  lemma ApplyAgree(a: Transcript, b: Transcript, full: Transcript, msg: Message)
    requires TranscriptsAgree(a, b, full) && !msg.Stream?
    ensures TranscriptsAgree(Apply(true, a, msg), Apply(true, b, msg), Apply(false, full, msg))
  {
    match msg {
      case Display(mime, displayId) =>
        if mime.Some? {
          PushAgree(a, b, full, WithDisplay(mime.value, displayId));
        }
      case UpdateDisplay(mime, displayId) =>
        if mime.Some? {
          UpdateAgree(a, b, full, mime.value, displayId);
        }
      case ClearOutput(wait) => ClearAgree(a, b, full, wait);
      case Error(ename, evalue, traceback) =>
        PushAgree(a, b, full, Text(0, Failure, ErrorText(ename, evalue, traceback), None, false));
      case InputRequest(prompt, password) =>
        PushAgree(a, b, full, Input(0, if prompt == "" then "Input requested:" else prompt, password, false, None));
      case _ =>
    }
  }

  // ----- a run of stream messages on transcripts -----

  /** Every cell with the current key gets these outputs. */
  function WithRun(t: Transcript, outputs: seq<Output>, nextOutputId: nat): Transcript {
    MapCell(t, t.currentKey, (c: Cell) => WithOutputs(c, outputs)).(nextOutputId := nextOutputId)
  }

  lemma StreamOnCurrent(capped: bool, t: Transcript, k: nat, msg: Message)
    requires CurrentAlike(t) && FindCell(t.cells, t.currentKey) == Some(k) && msg.Stream?
    ensures var (outputs, n) := StreamOutputs(capped, Visible(t.cells[k]), t.nextOutputId, msg);
            Apply(capped, t, msg) == WithRun(t, outputs, n)
  {
    var c, cls := t.cells[k], StreamClass(msg.name);
    var (outputs, n) := StreamOutputs(capped, Visible(c), t.nextOutputId, msg);
    var u, w := Apply(capped, t, msg), WithRun(t, outputs, n);
    assert IsCurrent(t, k);
    forall i | 0 <= i < |t.cells| ensures u.cells[i] == w.cells[i] {
      if IsCurrent(t, i) {
        assert Visible(t.cells[i]) == Visible(c);
        if !c.clearOnNext && Continues(c.outputs, cls) {
          var merged := Extend(capped, c.outputs[|c.outputs| - 1], msg.text);
          assert c.outputs[..|c.outputs| - 1] + [merged] == c.outputs[|c.outputs| - 1 := merged];
        }
      }
    }
  }

  lemma WithRunIsAlike(t: Transcript, outputs: seq<Output>, n: nat)
    ensures var u := WithRun(t, outputs, n);
            && CurrentAlike(u) && FindCell(u.cells, u.currentKey) == FindCell(t.cells, t.currentKey)
            && (forall i :: 0 <= i < |t.cells| && IsCurrent(t, i) ==> Visible(u.cells[i]) == outputs)
  {
    FindAlike(t.cells, WithRun(t, outputs, n).cells, t.currentKey);
  }

  lemma WithRunTwice(t: Transcript, x: seq<Output>, m: nat, y: seq<Output>, n: nat)
    ensures WithRun(WithRun(t, x, m), y, n) == WithRun(t, y, n)
  {
  }

  lemma {:induction false} FoldOnCurrent(capped: bool, t: Transcript, k: nat, msgs: seq<Message>)
    requires CurrentAlike(t) && FindCell(t.cells, t.currentKey) == Some(k) && AllStreams(msgs) && msgs != []
    ensures var (outputs, n) := RunOutputs(capped, Visible(t.cells[k]), t.nextOutputId, msgs);
            Fold(capped, t, msgs) == WithRun(t, outputs, n)
  {
    var init, msg := msgs[..|msgs| - 1], msgs[|msgs| - 1];
    if init == [] {
      assert Fold(capped, t, init) == t;
      StreamOnCurrent(capped, t, k, msg);
    } else {
      FoldOnCurrent(capped, t, k, init);
      var (outputs, n) := RunOutputs(capped, Visible(t.cells[k]), t.nextOutputId, init);
      WithRunIsAlike(t, outputs, n);
      assert IsCurrent(t, k);
      StreamOnCurrent(capped, WithRun(t, outputs, n), k, msg);
      var (outputs', n') := RunOutputs(capped, Visible(t.cells[k]), t.nextOutputId, msgs);
      WithRunTwice(t, outputs, n, outputs', n');
    }
  }

  lemma {:induction false} FoldWithoutCurrent(capped: bool, t: Transcript, msgs: seq<Message>)
    requires FindCell(t.cells, t.currentKey).None? && AllStreams(msgs)
    ensures Fold(capped, t, msgs) == t
  {
    if msgs != [] {
      FoldWithoutCurrent(capped, t, msgs[..|msgs| - 1]);
    }
  }

  lemma WithRunAgree(a: Transcript, b: Transcript, full: Transcript,
                     x: seq<Output>, y: seq<Output>, z: seq<Output>, n: nat)
    requires TranscriptsAgree(a, b, full) && OutputsAgree(x, y, z)
    ensures TranscriptsAgree(WithRun(a, x, n), WithRun(b, y, n), WithRun(full, z, n))
  {
    var f, g, h := (c: Cell) => WithOutputs(c, x), (c: Cell) => WithOutputs(c, y), (c: Cell) => WithOutputs(c, z);
    forall i | 0 <= i < |full.cells| ensures CellsAgree(f(a.cells[i]), g(b.cells[i]), h(full.cells[i])) {
      assert CellsAgree(a.cells[i], b.cells[i], full.cells[i]);
    }
    MapAgree(a, b, full, full.currentKey, f, g, h);
  }

  lemma StreamsAgree(a: Transcript, b: Transcript, full: Transcript, msgs: seq<Message>)
    requires TranscriptsAgree(a, b, full) && AllStreams(msgs) && msgs != []
    requires CurrentAlike(a) && CurrentAlike(full)
    ensures TranscriptsAgree(Fold(true, a, msgs), ApplyStreams(b, msgs), Fold(false, full, msgs))
    ensures CurrentAlike(b) ==> CurrentAlike(ApplyStreams(b, msgs))
  {
    FindAgree(a, b, full);
    var i := FindCell(full.cells, full.currentKey);
    if i.None? {
      FoldWithoutCurrent(true, a, msgs);
      FoldWithoutCurrent(false, full, msgs);
    } else {
      var k, id := i.value, full.nextOutputId;
      assert CellsAgree(a.cells[k], b.cells[k], full.cells[k]);
      var x, y, z := Visible(a.cells[k]), Visible(b.cells[k]), Visible(full.cells[k]);
      FoldOnCurrent(true, a, k, msgs);
      FoldOnCurrent(false, full, k, msgs);
      RunAgrees(x, y, z, id, msgs);
      var p := Close(Chunks(Pass(y, None, "", id), msgs));
      assert ApplyStreams(b, msgs) == WithRun(b, p.outputs, p.nextId);
      WithRunAgree(a, b, full, RunOutputs(true, x, id, msgs).0, p.outputs, RunOutputs(false, z, id, msgs).0, p.nextId);
      WithRunIsAlike(b, p.outputs, p.nextId);
    }
  }

  // ----- a whole list of messages -----

  lemma PushKeepsAlike(t: Transcript, o: Output)
    requires CurrentAlike(t)
    ensures CurrentAlike(PushOutput(t, o))
  {
    var u := PushOutput(t, o);
    forall i, j | 0 <= i < |u.cells| && 0 <= j < |u.cells| && IsCurrent(u, i) && IsCurrent(u, j)
      ensures Visible(u.cells[i]) == Visible(u.cells[j])
    {
      assert IsCurrent(t, i) && IsCurrent(t, j);
    }
  }

  lemma UpdateKeepsAlike(t: Transcript, mime: Mime, displayId: Option<string>)
    requires CurrentAlike(t)
    ensures CurrentAlike(ApplyUpdate(t, mime, displayId))
  {
    PushKeepsAlike(t, WithDisplay(mime, displayId));
    if HasDisplay(displayId) && ShownIn(t, displayId.value) {
      var u := ApplyUpdate(t, mime, displayId);
      forall i, j | 0 <= i < |u.cells| && 0 <= j < |u.cells| && IsCurrent(u, i) && IsCurrent(u, j)
        ensures Visible(u.cells[i]) == Visible(u.cells[j])
      {
        assert IsCurrent(t, i) && IsCurrent(t, j) && Visible(t.cells[i]) == Visible(t.cells[j]);
        assert u.cells[i] == RedisplayIn(t.cells[i], mime, displayId.value);
        assert u.cells[j] == RedisplayIn(t.cells[j], mime, displayId.value);
      }
    }
  }

  /** Whatever comes, cells that look alike stay so. */
  lemma ApplyKeepsAlike(capped: bool, t: Transcript, msg: Message)
    requires CurrentAlike(t)
    ensures CurrentAlike(Apply(capped, t, msg))
  {
    match msg {
      case Stream(name, text) =>
        var i := FindCell(t.cells, t.currentKey);
        if i.Some? {
          StreamOnCurrent(capped, t, i.value, msg);
          var (outputs, n) := StreamOutputs(capped, Visible(t.cells[i.value]), t.nextOutputId, msg);
          WithRunIsAlike(t, outputs, n);
        }
      case Display(mime, displayId) =>
        if mime.Some? {
          PushKeepsAlike(t, WithDisplay(mime.value, displayId));
        }
      case UpdateDisplay(mime, displayId) =>
        if mime.Some? {
          UpdateKeepsAlike(t, mime.value, displayId);
        }
      case ClearOutput(wait) =>
        var u := Apply(capped, t, msg);
        forall i | 0 <= i < |u.cells| && IsCurrent(u, i) ensures Visible(u.cells[i]) == [] {
          assert IsCurrent(t, i);
        }
      case Error(ename, evalue, traceback) =>
        PushKeepsAlike(t, Text(0, Failure, ErrorText(ename, evalue, traceback), None, false));
      case InputRequest(prompt, password) =>
        PushKeepsAlike(t, Input(0, if prompt == "" then "Input requested:" else prompt, password, false, None));
      case Other =>
    }
  }

  lemma {:induction false} FoldKeepsAlike(capped: bool, t: Transcript, msgs: seq<Message>)
    requires CurrentAlike(t)
    ensures CurrentAlike(Fold(capped, t, msgs))
  {
    if msgs != [] {
      var init := msgs[..|msgs| - 1];
      FoldKeepsAlike(capped, t, init);
      ApplyKeepsAlike(capped, Fold(capped, t, init), msgs[|msgs| - 1]);
    }
  }

  lemma {:induction false} AllAgree(a: Transcript, b: Transcript, full: Transcript, msgs: seq<Message>)
    requires TranscriptsAgree(a, b, full) && CurrentAlike(a) && CurrentAlike(b) && CurrentAlike(full)
    ensures TranscriptsAgree(Fold(true, a, msgs), ApplyAll(b, msgs), Fold(false, full, msgs))
    decreases |msgs|
  {
    if msgs != [] {
      var n := if msgs[0].Stream? then StreamRun(msgs) else 1;
      var xs, ys := msgs[..n], msgs[n..];
      F.FoldSplit(Applier(true), a, msgs, n);
      F.FoldSplit(Applier(false), full, msgs, n);
      FoldKeepsAlike(true, a, xs);
      FoldKeepsAlike(false, full, xs);
      if msgs[0].Stream? {
        StreamsAgree(a, b, full, xs);
        AllAgree(Fold(true, a, xs), ApplyStreams(b, xs), Fold(false, full, xs), ys);
      } else {
        FoldOfOne(true, a, xs);
        FoldOfOne(false, full, xs);
        ApplyAgree(a, b, full, msgs[0]);
        ApplyKeepsAlike(true, b, msgs[0]);
        AllAgree(Fold(true, a, xs), Apply(true, b, msgs[0]), Fold(false, full, xs), ys);
      }
    }
  }

  lemma FoldOfOne(capped: bool, t: Transcript, msgs: seq<Message>)
    requires |msgs| == 1
    ensures Fold(capped, t, msgs) == Apply(capped, t, msgs[0])
  {
    F.FoldOne(Applier(capped), t, msgs[0]);
    assert msgs == [msgs[0]];
  }

  lemma AgreesWithItself(t: Transcript)
    ensures TranscriptsAgree(t, t, t)
  {
  }

  /**
   The promise: the one-pass form gives the cells, ids, classes and truncated flags of one message at
   a time, and two texts that are ends of one full text: equal, or both cut to size.
   */
  lemma OnePassAgrees(t: Transcript, msgs: seq<Message>)
    requires CurrentAlike(t)
    ensures TranscriptsAgree(Fold(true, t, msgs), ApplyAll(t, msgs), Fold(false, t, msgs))
  {
    AgreesWithItself(t);
    AllAgree(t, t, t, msgs);
  }

  // ----- and only then -----

  /** A stream whose chunk opens a block of its own after these outputs. */
  function OtherStream(outputs: seq<Output>): string
    ensures !Continues(outputs, StreamClass(OtherStream(outputs)))
  {
    if Continues(outputs, Plain) then "stderr" else "stdout"
  }

  /** What one empty chunk of another stream does in one pass: all get the first one's outputs, and a block. */
  lemma PassCopiesTheFirst(t: Transcript, k: nat, i: nat)
    requires FindCell(t.cells, t.currentKey) == Some(k) && IsCurrent(t, i)
    ensures var msg := Stream(OtherStream(Visible(t.cells[k])), "");
            var u := ApplyAll(t, [msg]);
            && |u.cells| == |t.cells|
            && u.cells[i].outputs == Visible(t.cells[k]) + [Block(true, t.nextOutputId, StreamClass(msg.name), "")]
  {
    var msg := Stream(OtherStream(Visible(t.cells[k])), "");
    var start := OpenPass(t, t.cells[k]);
    assert [msg][..0] == [] && [msg][..1] == [msg] && [msg][1..] == [];
    assert StreamRun([msg]) == 1;
    assert Chunks(start, [msg]) == Chunk(start, msg.name, "");
    assert ApplyAll(t, [msg]) == ApplyStreams(t, [msg]);
  }

  /** And one at a time: each keeps its own. */
  lemma FoldKeepsEach(capped: bool, t: Transcript, k: nat, i: nat)
    requires FindCell(t.cells, t.currentKey) == Some(k) && IsCurrent(t, i)
    ensures var msg := Stream(OtherStream(Visible(t.cells[k])), "");
            var u := Fold(capped, t, [msg]);
            && |u.cells| == |t.cells|
            && u.cells[i].outputs == Visible(t.cells[i]) + [Block(capped, t.nextOutputId, StreamClass(msg.name), "")]
  {
    FoldOfOne(capped, t, [Stream(OtherStream(Visible(t.cells[k])), "")]);
  }

  /** What was not cut on the way has no other end that agrees with it. */
  lemma WholeAgreesWithItselfOnly(a: seq<Output>, b: seq<Output>)
    requires OutputsAgree(a, b, a)
    ensures a == b
  {
    forall i | 0 <= i < |a| ensures a[i] == b[i] {
      assert Agree(a[i], b[i], a[i]);
    }
  }

  lemma SameButLast(x: seq<Output>, y: seq<Output>, o: Output)
    ensures x + [o] == y + [o] <==> x == y
  {
    assert (x + [o])[..|x|] == x && (y + [o])[..|y|] == y;
    if x + [o] == y + [o] {
      assert |x + [o]| == |y + [o]|;
    }
  }

  /** Two cells of the current key that do not look alike: one message tells the two forms apart. */
  lemma UnlikeCellsPart(t: Transcript) returns (msg: Message)
    requires !CurrentAlike(t)
    ensures !TranscriptsAgree(Fold(true, t, [msg]), ApplyAll(t, [msg]), Fold(false, t, [msg]))
  {
    var p, q :| 0 <= p < |t.cells| && 0 <= q < |t.cells| && IsCurrent(t, p) && IsCurrent(t, q)
                && Visible(t.cells[p]) != Visible(t.cells[q]);
    var k := FindCell(t.cells, t.currentKey).value;
    var i := if Visible(t.cells[p]) == Visible(t.cells[k]) then q else p;
    msg := Stream(OtherStream(Visible(t.cells[k])), "");
    FoldKeepsEach(true, t, k, i);
    FoldKeepsEach(false, t, k, i);
    PassCopiesTheFirst(t, k, i);
    var a, b, full := Fold(true, t, [msg]), ApplyAll(t, [msg]), Fold(false, t, [msg]);
    SameButLast(Visible(t.cells[i]), Visible(t.cells[k]), Block(true, t.nextOutputId, StreamClass(msg.name), ""));
    if TranscriptsAgree(a, b, full) {
      assert CellsAgree(a.cells[i], b.cells[i], full.cells[i]);
      WholeAgreesWithItselfOnly(a.cells[i].outputs, b.cells[i].outputs);
    }
  }

  /** The two forms agree on every list of messages exactly when the cells with the current key look alike. */
  lemma OnePassAgreesIff(t: Transcript)
    ensures CurrentAlike(t) <==>
            forall msgs :: TranscriptsAgree(Fold(true, t, msgs), ApplyAll(t, msgs), Fold(false, t, msgs))
  {
    if CurrentAlike(t) {
      forall msgs ensures TranscriptsAgree(Fold(true, t, msgs), ApplyAll(t, msgs), Fold(false, t, msgs)) {
        OnePassAgrees(t, msgs);
      }
    } else {
      var msg := UnlikeCellsPart(t);
    }
  }

  // ----- with nothing over the cap -----

  predicate NothingOverCap(t: Transcript) {
    forall i, j :: 0 <= i < |t.cells| && 0 <= j < |t.cells[i].outputs| && t.cells[i].outputs[j].Text? ==>
      |t.cells[i].outputs[j].text| <= MAX_OUTPUT_CHARS
  }

  lemma OutputsEqual(a: seq<Output>, b: seq<Output>, full: seq<Output>)
    requires OutputsAgree(a, b, full)
    requires forall j :: 0 <= j < |full| && full[j].Text? ==> |full[j].text| <= MAX_OUTPUT_CHARS
    ensures a == b == full
  {
    forall j | 0 <= j < |full| ensures a[j] == b[j] == full[j] {
      assert Agree(a[j], b[j], full[j]);
    }
  }

  /** With no full text over the cap the two forms are identical, and so is never capping at all. */
  lemma OnePassIsExact(t: Transcript, msgs: seq<Message>)
    requires CurrentAlike(t) && NothingOverCap(Fold(false, t, msgs))
    ensures ApplyAll(t, msgs) == Fold(true, t, msgs) == Fold(false, t, msgs)
  {
    OnePassAgrees(t, msgs);
    var a, b, full := Fold(true, t, msgs), ApplyAll(t, msgs), Fold(false, t, msgs);
    forall i | 0 <= i < |full.cells| ensures a.cells[i] == b.cells[i] == full.cells[i] {
      assert CellsAgree(a.cells[i], b.cells[i], full.cells[i]);
      OutputsEqual(a.cells[i].outputs, b.cells[i].outputs, full.cells[i].outputs);
    }
  }
}
