/**
 The console transcript (tools/playground/lib/transcript.ts): what one message does to it, and the
 one-pass form for a list of messages. A character stands for one UTF-16 code unit. Every function
 that caps a block takes a flag, so that the same code also tells the full, never capped, text.
 */
module Transcripts {
  import opened Wrappers
  import F = Folds

  const MAX_OUTPUT_CHARS: nat := 200_000

  datatype Class = Plain | Stderr | Result | Failure | System

  datatype Output =
    | Text(id: nat, cls: Class, text: string, displayId: Option<string>, truncated: bool)
    | Image(id: nat, src: string, displayId: Option<string>)
    | Input(id: nat, prompt: string, password: bool, answered: bool, answeredValue: Option<string>)

  datatype Cell = Cell(key: string, inNum: int, code: string, time: int, outputs: seq<Output>, clearOnNext: bool)

  datatype Transcript = Transcript(cells: seq<Cell>, currentKey: Option<string>, nextOutputId: nat)

  /** What formatMimeData() picks out of a bundle. */
  datatype Mime = MimeImage(src: string) | MimeText(text: string)

  datatype Message =
    | Stream(name: string, text: string)
    | Display(mime: Option<Mime>, displayId: Option<string>)
    | UpdateDisplay(mime: Option<Mime>, displayId: Option<string>)
    | ClearOutput(wait: bool)
    | Error(ename: string, evalue: string, traceback: string)
    | InputRequest(prompt: string, password: bool)
    | Other

  // ----- capping -----

  /** The place of the first newline, or none. */
  function IndexOfNewline(text: string): (i: Option<nat>)
    ensures i.Some? ==> i.value < |text|
  {
    if text == "" then None
    else if text[0] == '\n' then Some(0)
    else
      var rest := IndexOfNewline(text[1..]);
      if rest.None? then None else Some(rest.value + 1)
  }

  lemma {:induction false} IndexIsFirst(text: string)
    ensures match IndexOfNewline(text)
            case None => '\n' !in text
            case Some(i) => text[i] == '\n' && '\n' !in text[..i]
  {
    if text != "" && text[0] != '\n' {
      IndexIsFirst(text[1..]);
      if IndexOfNewline(text).Some? {
        var i := IndexOfNewline(text[1..]).value;
        assert text[..i + 1] == [text[0]] + text[1..][..i];
      }
    }
  }

  /** The last MAX_OUTPUT_CHARS, from a line boundary when one is close. */
  function Kept(text: string): string
    requires |text| > MAX_OUTPUT_CHARS
  {
    var kept := text[|text| - MAX_OUTPUT_CHARS..];
    var newline := IndexOfNewline(kept);
    if newline.Some? && newline.value < 2000 then kept[newline.value + 1..] else kept
  }

  function CapText(capped: bool, text: string): string {
    if capped && |text| > MAX_OUTPUT_CHARS then Kept(text) else text
  }

  predicate OverCap(capped: bool, text: string) {
    capped && |text| > MAX_OUTPUT_CHARS
  }

  // ----- one message -----

  /** The first cell with this key. */
  function FindCell(cells: seq<Cell>, key: Option<string>): (i: Option<nat>)
    ensures i.Some? ==> i.value < |cells| && Some(cells[i.value].key) == key
    ensures i.Some? ==> forall j :: 0 <= j < i.value ==> Some(cells[j].key) != key
    ensures i.None? ==> forall j :: 0 <= j < |cells| ==> Some(cells[j].key) != key
  {
    if cells == [] then None
    else if Some(cells[0].key) == key then Some(0)
    else
      var rest := FindCell(cells[1..], key);
      if rest.None? then None else Some(rest.value + 1)
  }

  function MapCell(t: Transcript, key: Option<string>, f: Cell -> Cell): Transcript {
    t.(cells := seq(|t.cells|, i requires 0 <= i < |t.cells| =>
                      if Some(t.cells[i].key) == key then f(t.cells[i]) else t.cells[i]))
  }

  function AddOutput(c: Cell, output: Output): Cell {
    c.(clearOnNext := false, outputs := (if c.clearOnNext then [] else c.outputs) + [output])
  }

  /** Gives the output the next id and appends it to the current cell, if there is one. */
  function PushOutput(t: Transcript, output: Output): Transcript {
    if FindCell(t.cells, t.currentKey).None? then t
    else
      var numbered := output.(id := t.nextOutputId);
      MapCell(t, t.currentKey, (c: Cell) => AddOutput(c, numbered)).(nextOutputId := t.nextOutputId + 1)
  }

  function WithDisplay(mime: Mime, displayId: Option<string>): Output {
    match mime
    case MimeImage(src) => Image(0, src, displayId)
    case MimeText(text) => Text(0, Result, text, displayId, false)
  }

  /** An empty display id counts as none. */
  predicate HasDisplay(displayId: Option<string>) {
    displayId.Some? && displayId.value != ""
  }

  function StreamClass(name: string): Class {
    if name == "stderr" then Stderr else Plain
  }

  /** Whether a chunk of this class goes on the last of these outputs. */
  predicate Continues(outputs: seq<Output>, cls: Class) {
    && outputs != []
    && var last := outputs[|outputs| - 1];
       last.Text? && last.cls == cls && !HasDisplay(last.displayId)
  }

  function Extend(capped: bool, last: Output, chunk: string): Output
    requires last.Text?
  {
    last.(text := CapText(capped, last.text + chunk),
          truncated := last.truncated || OverCap(capped, last.text + chunk))
  }

  function Block(capped: bool, id: nat, cls: Class, text: string): Output {
    Text(id, cls, CapText(capped, text), None, OverCap(capped, text))
  }

  function ReplaceLast(c: Cell, block: Output): Cell {
    c.(outputs := (if c.outputs == [] then [] else c.outputs[..|c.outputs| - 1]) + [block])
  }

  function ApplyStream(capped: bool, t: Transcript, name: string, text: string): Transcript {
    var cls := StreamClass(name);
    var i := FindCell(t.cells, t.currentKey);
    if i.Some? && !t.cells[i.value].clearOnNext && Continues(t.cells[i.value].outputs, cls) then
      var outputs := t.cells[i.value].outputs;
      var merged := Extend(capped, outputs[|outputs| - 1], text);
      MapCell(t, t.currentKey, (c: Cell) => ReplaceLast(c, merged))
    else
      PushOutput(t, Block(capped, 0, cls, text))
  }

  predicate Shows(o: Output, displayId: string) {
    !o.Input? && o.displayId == Some(displayId)
  }

  function Redisplay(o: Output, mime: Mime, displayId: string): Output {
    if !Shows(o, displayId) then o
    else match mime
      case MimeImage(src) => Image(o.id, src, Some(displayId))
      case MimeText(text) => Text(o.id, if o.Text? then o.cls else Result, text, Some(displayId), false)
  }

  function RedisplayIn(c: Cell, mime: Mime, displayId: string): Cell {
    c.(outputs := seq(|c.outputs|, i requires 0 <= i < |c.outputs| => Redisplay(c.outputs[i], mime, displayId)))
  }

  predicate ShownIn(t: Transcript, displayId: string) {
    exists i, j :: 0 <= i < |t.cells| && 0 <= j < |t.cells[i].outputs| && Shows(t.cells[i].outputs[j], displayId)
  }

  function ApplyUpdate(t: Transcript, mime: Mime, displayId: Option<string>): Transcript {
    if HasDisplay(displayId) && ShownIn(t, displayId.value) then
      t.(cells := seq(|t.cells|, i requires 0 <= i < |t.cells| => RedisplayIn(t.cells[i], mime, displayId.value)))
    else PushOutput(t, WithDisplay(mime, displayId))
  }

  function ErrorText(ename: string, evalue: string, traceback: string): string {
    ename + ": " + evalue + if traceback == "" then "" else "\n" + traceback
  }

  /** One message applied; the flag says whether blocks are capped. */
  function Apply(capped: bool, t: Transcript, msg: Message): Transcript {
    match msg
    case Stream(name, text) => ApplyStream(capped, t, name, text)
    case Display(mime, displayId) =>
      if mime.Some? then PushOutput(t, WithDisplay(mime.value, displayId)) else t
    case UpdateDisplay(mime, displayId) =>
      if mime.Some? then ApplyUpdate(t, mime.value, displayId) else t
    case ClearOutput(wait) =>
      MapCell(t, t.currentKey, (c: Cell) => if wait then c.(clearOnNext := true) else c.(outputs := []))
    case Error(ename, evalue, traceback) =>
      PushOutput(t, Text(0, Failure, ErrorText(ename, evalue, traceback), None, false))
    case InputRequest(prompt, password) =>
      PushOutput(t, Input(0, if prompt == "" then "Input requested:" else prompt, password, false, None))
    case Other => t
  }

  function Applier(capped: bool): (Transcript, Message) -> Transcript {
    (t: Transcript, msg: Message) => Apply(capped, t, msg)
  }

  /** Message after message. */
  function Fold(capped: bool, t: Transcript, msgs: seq<Message>): Transcript {
    F.Fold(Applier(capped), t, msgs)
  }

  // ----- a list of messages in one pass -----

  /** The cell's outputs being built: `text` is what the block at `open` will be capped from. */
  datatype Pass = Pass(outputs: seq<Output>, open: Option<nat>, text: string, nextId: nat)

  function Close(p: Pass): Pass {
    if p.open.None? || p.open.value >= |p.outputs| || !p.outputs[p.open.value].Text? then p.(open := None)
    else
      var last := p.outputs[p.open.value];
      var capped := last.(text := CapText(true, p.text), truncated := last.truncated || OverCap(true, p.text));
      p.(outputs := p.outputs[p.open.value := capped], open := None)
  }

  function Chunk(p: Pass, name: string, chunk: string): Pass {
    var cls := StreamClass(name);
    if Continues(p.outputs, cls) then
      if p.open.None? then
        p.(open := Some(|p.outputs| - 1), text := p.outputs[|p.outputs| - 1].text + chunk)
      else p.(text := p.text + chunk)
    else
      var closed := Close(p);
      Pass(closed.outputs + [Text(p.nextId, cls, "", None, false)], Some(|closed.outputs|), chunk, p.nextId + 1)
  }

  predicate AllStreams(msgs: seq<Message>) {
    forall i :: 0 <= i < |msgs| ==> msgs[i].Stream?
  }

  function Chunks(p: Pass, msgs: seq<Message>): Pass
    requires AllStreams(msgs)
  {
    if msgs == [] then p
    else
      var last := msgs[|msgs| - 1];
      Chunk(Chunks(p, msgs[..|msgs| - 1]), last.name, last.text)
  }

  function OpenPass(t: Transcript, c: Cell): Pass {
    Pass(if c.clearOnNext then [] else c.outputs, None, "", t.nextOutputId)
  }

  function WithOutputs(c: Cell, outputs: seq<Output>): Cell {
    c.(clearOnNext := false, outputs := outputs)
  }

  /** A run of stream messages applied in one pass over the current cell's outputs. */
  function ApplyStreams(t: Transcript, msgs: seq<Message>): Transcript
    requires AllStreams(msgs)
  {
    var i := FindCell(t.cells, t.currentKey);
    if i.None? then t
    else
      var p := Close(Chunks(OpenPass(t, t.cells[i.value]), msgs));
      MapCell(t, t.currentKey, (c: Cell) => WithOutputs(c, p.outputs)).(nextOutputId := p.nextId)
  }

  /** The length of the run of stream messages in front. */
  function StreamRun(msgs: seq<Message>): (n: nat)
    ensures n <= |msgs| && AllStreams(msgs[..n])
    ensures n < |msgs| ==> !msgs[n].Stream?
  {
    if msgs == [] || !msgs[0].Stream? then 0 else 1 + StreamRun(msgs[1..])
  }

  /** The whole list: runs of stream messages in one pass each, the others one by one. */
  function ApplyAll(t: Transcript, msgs: seq<Message>): Transcript
    decreases |msgs|
  {
    if msgs == [] then t
    else if !msgs[0].Stream? then ApplyAll(Apply(true, t, msgs[0]), msgs[1..])
    else
      var n := StreamRun(msgs);
      ApplyAll(ApplyStreams(t, msgs[..n]), msgs[n..])
  }
}
