/**
 What the messages other than a stream's do to a transcript (tools/playground/lib/transcript.ts), stated on
 what is on the screen: which outputs there are, where, with what in them and under which ids.
 */
module TranscriptLaws {
  import opened Wrappers
  import opened Transcripts
  import opened TranscriptAgreement
  import F = Folds

  // ----- adding one output -----

  function Displayed(mime: Mime, displayId: Option<string>, id: nat): Output {
    match mime
    case MimeImage(src) => Image(id, src, displayId)
    case MimeText(text) => Text(id, Result, text, displayId, false)
  }

  /** The output a message stands for, under this id; a stream's text and a clear_output stand for none. */
  function Added(msg: Message, id: nat): Option<Output> {
    match msg
    case Display(mime, displayId) => if mime.Some? then Some(Displayed(mime.value, displayId, id)) else None
    case UpdateDisplay(mime, displayId) => if mime.Some? then Some(Displayed(mime.value, displayId, id)) else None
    case Error(ename, evalue, traceback) =>
      var trace := if traceback == "" then "" else "\n" + traceback;
      Some(Text(id, Failure, ename + ": " + evalue + trace, None, false))
    case InputRequest(prompt, password) =>
      Some(Input(id, if prompt == "" then "Input requested:" else prompt, password, false, None))
    case _ => None
  }

  /** The output was published under this display id. */
  predicate Under(o: Output, displayId: string) {
    match o
    case Text(_, _, _, d, _) => d == Some(displayId)
    case Image(_, _, d) => d == Some(displayId)
    case Input(_, _, _, _, _) => false
  }

  ghost predicate OnScreen(t: Transcript, displayId: string) {
    exists i, j :: 0 <= i < |t.cells| && 0 <= j < |t.cells[i].outputs| && Under(t.cells[i].outputs[j], displayId)
  }

  /** The message updates a display that is on the screen. */
  ghost predicate Updates(t: Transcript, msg: Message) {
    && msg.UpdateDisplay? && msg.mime.Some? && msg.displayId.Some? && msg.displayId.value != ""
    && OnScreen(t, msg.displayId.value)
  }

  ghost predicate HasCurrent(t: Transcript) {
    exists i :: 0 <= i < |t.cells| && IsCurrent(t, i)
  }

  /** The current cell shows one output more, or that one alone if it was to be cleared; no other cell changes. */
  ghost predicate Appends(t: Transcript, u: Transcript, o: Output) {
    && |u.cells| == |t.cells| && u.currentKey == t.currentKey && u.nextOutputId == t.nextOutputId + 1
    && forall i :: 0 <= i < |t.cells| ==>
         u.cells[i] == if IsCurrent(t, i) then t.cells[i].(clearOnNext := false, outputs := Visible(t.cells[i]) + [o])
                       else t.cells[i]
  }

  lemma FindsCurrent(t: Transcript)
    ensures FindCell(t.cells, t.currentKey).Some? <==> HasCurrent(t)
  {
    if FindCell(t.cells, t.currentKey).Some? {
      assert IsCurrent(t, FindCell(t.cells, t.currentKey).value);
    }
  }

  lemma PushAppends(t: Transcript, o: Output)
    requires HasCurrent(t)
    ensures Appends(t, PushOutput(t, o), o.(id := t.nextOutputId))
  {
    FindsCurrent(t);
  }

  lemma ShownIsOnScreen(t: Transcript, displayId: string)
    ensures ShownIn(t, displayId) <==> OnScreen(t, displayId)
  {
    assert forall o :: Shows(o, displayId) <==> Under(o, displayId);
  }

  /**
   A display, an error, a request for input, and an update of what is not on the screen add exactly the
   output they stand for, under the next id; without a current cell nothing changes.
   */
  lemma AddsOneOutput(capped: bool, t: Transcript, msg: Message)
    requires Added(msg, t.nextOutputId).Some? && !Updates(t, msg)
    ensures if HasCurrent(t) then Appends(t, Apply(capped, t, msg), Added(msg, t.nextOutputId).value)
            else Apply(capped, t, msg) == t
  {
    FindsCurrent(t);
    match msg
    case Display(mime, displayId) => AddsDisplay(t, mime.value, displayId);
    case UpdateDisplay(mime, displayId) =>
      if displayId.Some? {
        ShownIsOnScreen(t, displayId.value);
      }
      AddsDisplay(t, mime.value, displayId);
    case Error(ename, evalue, traceback) =>
      if HasCurrent(t) {
        PushAppends(t, Text(0, Failure, ErrorText(ename, evalue, traceback), None, false));
        assert ErrorText(ename, evalue, traceback)
            == ename + ": " + evalue + (if traceback == "" then "" else "\n" + traceback);
      }
    case InputRequest(prompt, password) =>
      if HasCurrent(t) {
        PushAppends(t, Input(0, if prompt == "" then "Input requested:" else prompt, password, false, None));
      }
  }

  lemma AddsDisplay(t: Transcript, mime: Mime, displayId: Option<string>)
    ensures var u := PushOutput(t, WithDisplay(mime, displayId));
            if HasCurrent(t) then Appends(t, u, Displayed(mime, displayId, t.nextOutputId)) else u == t
  {
    FindsCurrent(t);
    if HasCurrent(t) {
      PushAppends(t, WithDisplay(mime, displayId));
    }
  }

  // ----- updating in place -----

  /** The output with the new content; what kind of text it was is kept. */
  function Updated(o: Output, mime: Mime): Output
    requires !o.Input?
  {
    match mime
    case MimeImage(src) => Image(o.id, src, o.displayId)
    case MimeText(text) => Text(o.id, if o.Text? then o.cls else Result, text, o.displayId, false)
  }

  ghost predicate UpdatedIn(t: Transcript, u: Transcript, mime: Mime, displayId: string) {
    && |u.cells| == |t.cells| && u.currentKey == t.currentKey && u.nextOutputId == t.nextOutputId
    && forall i :: 0 <= i < |t.cells| ==> UpdatedCell(t.cells[i], u.cells[i], mime, displayId)
  }

  ghost predicate UpdatedCell(c: Cell, d: Cell, mime: Mime, displayId: string) {
    && d == c.(outputs := d.outputs) && |d.outputs| == |c.outputs|
    && forall j :: 0 <= j < |c.outputs| ==>
         d.outputs[j] == if Under(c.outputs[j], displayId) then Updated(c.outputs[j], mime) else c.outputs[j]
  }

  /** An update changes exactly the outputs with its display id, in whatever cell, and keeps their ids. */
  lemma UpdatesInPlace(capped: bool, t: Transcript, msg: Message)
    requires Updates(t, msg)
    ensures UpdatedIn(t, Apply(capped, t, msg), msg.mime.value, msg.displayId.value)
  {
    var u := Apply(capped, t, msg);
    ShownIsOnScreen(t, msg.displayId.value);
    forall i | 0 <= i < |t.cells| ensures UpdatedCell(t.cells[i], u.cells[i], msg.mime.value, msg.displayId.value) {
      assert u.cells[i] == RedisplayIn(t.cells[i], msg.mime.value, msg.displayId.value);
    }
  }

  /** What neither adds nor updates nor clears changes nothing. */
  lemma OthersChangeNothing(capped: bool, t: Transcript, msg: Message)
    requires Added(msg, 0).None? && !msg.Stream? && !msg.ClearOutput?
    ensures Apply(capped, t, msg) == t
  {
  }

  // ----- clearing -----

  /** The current cell with nothing in it. */
  function Emptied(t: Transcript): Transcript {
    t.(cells := seq(|t.cells|, i requires 0 <= i < |t.cells| =>
                      if IsCurrent(t, i) then t.cells[i].(outputs := [], clearOnNext := false) else t.cells[i]))
  }

  /** The current cell to be cleared by what it shows next. */
  function Marked(t: Transcript): Transcript {
    t.(cells := seq(|t.cells|, i requires 0 <= i < |t.cells| =>
                      if IsCurrent(t, i) then t.cells[i].(clearOnNext := true) else t.cells[i]))
  }

  /** The message adds no output and no text. */
  ghost predicate Quiet(t: Transcript, msg: Message) {
    !msg.Stream? && (Added(msg, 0).None? || Updates(t, msg))
  }

  /** Nothing is to be seen of the current cell from its next output on. */
  ghost predicate Blank(t: Transcript) {
    forall i :: 0 <= i < |t.cells| && IsCurrent(t, i) ==> Visible(t.cells[i]) == []
  }

  /** The same transcript, but for what is shown of a current cell until its next output. */
  ghost predicate SameButCurrent(a: Transcript, b: Transcript) {
    && |a.cells| == |b.cells| && a.currentKey == b.currentKey && a.nextOutputId == b.nextOutputId
    && forall i :: 0 <= i < |a.cells| ==>
         if IsCurrent(a, i) then b.cells[i] == a.cells[i].(outputs := b.cells[i].outputs,
                                                            clearOnNext := b.cells[i].clearOnNext)
         else b.cells[i] == a.cells[i]
  }

  lemma SameCurrent(a: Transcript, b: Transcript)
    requires SameButCurrent(a, b)
    ensures forall i: nat :: IsCurrent(a, i) <==> IsCurrent(b, i)
    ensures HasCurrent(a) <==> HasCurrent(b)
  {
    assert forall i :: 0 <= i < |a.cells| ==> a.cells[i].key == b.cells[i].key;
    assert forall i: nat :: IsCurrent(a, i) <==> IsCurrent(b, i);
  }

  /** A stream's text is a block of its own in a cell of which nothing is to be seen. */
  lemma StreamOnBlank(capped: bool, t: Transcript, msg: Message)
    requires Blank(t) && msg.Stream?
    ensures Apply(capped, t, msg) == PushOutput(t, Block(capped, 0, StreamClass(msg.name), msg.text))
  {
    var i := FindCell(t.cells, t.currentKey);
    if i.Some? {
      assert IsCurrent(t, i.value) && Visible(t.cells[i.value]) == [];
    }
  }

  lemma AppendsAlike(a: Transcript, b: Transcript, u: Transcript, w: Transcript, o: Output)
    requires SameButCurrent(a, b) && Blank(a) && Blank(b) && Appends(a, u, o) && Appends(b, w, o)
    ensures u == w
  {
    SameCurrent(a, b);
    assert u.cells == w.cells;
  }

  /** Whatever adds to two such cells makes them equal. */
  lemma AddsAlike(capped: bool, a: Transcript, b: Transcript, msg: Message)
    requires SameButCurrent(a, b) && Blank(a) && Blank(b) && !Quiet(a, msg) && !Quiet(b, msg)
    ensures HasCurrent(a) ==> Apply(capped, a, msg) == Apply(capped, b, msg)
  {
    SameCurrent(a, b);
    if HasCurrent(a) {
      var u, w := Apply(capped, a, msg), Apply(capped, b, msg);
      if msg.Stream? {
        var block := Block(capped, a.nextOutputId, StreamClass(msg.name), msg.text);
        StreamOnBlank(capped, a, msg);
        StreamOnBlank(capped, b, msg);
        PushAppends(a, block);
        PushAppends(b, block);
        AppendsAlike(a, b, u, w, block);
      } else {
        assert Added(msg, a.nextOutputId).Some?;
        AddsOneOutput(capped, a, msg);
        AddsOneOutput(capped, b, msg);
        AppendsAlike(a, b, u, w, Added(msg, a.nextOutputId).value);
      }
    }
  }

  lemma WithoutCurrent(capped: bool, t: Transcript, msg: Message)
    requires !HasCurrent(t) && !Updates(t, msg)
    ensures Apply(capped, t, msg) == t
  {
    FindsCurrent(t);
    if Added(msg, t.nextOutputId).Some? {
      AddsOneOutput(capped, t, msg);
    } else if msg.ClearOutput? {
      assert forall i :: 0 <= i < |t.cells| ==> !IsCurrent(t, i);
      assert Apply(capped, t, msg).cells == t.cells;
    }
  }

  lemma Plus(capped: bool, t: Transcript, xs: seq<Message>, ys: seq<Message>)
    ensures Fold(capped, t, xs + ys) == Fold(capped, Fold(capped, t, xs), ys)
  {
    F.FoldAppend(Applier(capped), t, xs, ys);
  }

  lemma PlusOne(capped: bool, t: Transcript, msg: Message)
    ensures Fold(capped, t, [msg]) == Apply(capped, t, msg)
  {
    F.FoldOne(Applier(capped), t, msg);
  }

  /** The same transcript, but for whether a current cell that is empty is still to be cleared. */
  ghost predicate SameScreen(a: Transcript, b: Transcript) {
    a == b || (SameButCurrent(a, b) && CurrentEmpty(a) && CurrentEmpty(b))
  }

  ghost predicate CurrentEmpty(t: Transcript) {
    forall i :: 0 <= i < |t.cells| && IsCurrent(t, i) ==> t.cells[i].outputs == []
  }

  /** What is on the screen is in the other cells. */
  lemma SameUpdates(a: Transcript, b: Transcript, msg: Message)
    requires SameButCurrent(a, b) && CurrentEmpty(a) && Updates(a, msg)
    ensures Updates(b, msg)
  {
    var i, j :| 0 <= i < |a.cells| && 0 <= j < |a.cells[i].outputs|
                && Under(a.cells[i].outputs[j], msg.displayId.value);
    assert !IsCurrent(a, i);
    assert b.cells[i] == a.cells[i];
  }

  lemma UpdateKeepsScreen(capped: bool, a: Transcript, b: Transcript, msg: Message)
    requires SameButCurrent(a, b) && CurrentEmpty(a) && CurrentEmpty(b) && Updates(a, msg) && Updates(b, msg)
    ensures SameScreen(Apply(capped, a, msg), Apply(capped, b, msg))
  {
    var u, w := Apply(capped, a, msg), Apply(capped, b, msg);
    UpdatesInPlace(capped, a, msg);
    UpdatesInPlace(capped, b, msg);
    assert u.currentKey == a.currentKey && w.currentKey == b.currentKey;
    forall i | 0 <= i < |a.cells|
      ensures if IsCurrent(a, i) then u.cells[i].outputs == [] && w.cells[i].outputs == []
              else w.cells[i] == u.cells[i]
    {
      assert UpdatedCell(a.cells[i], u.cells[i], msg.mime.value, msg.displayId.value);
      assert UpdatedCell(b.cells[i], w.cells[i], msg.mime.value, msg.displayId.value);
      if !IsCurrent(a, i) {
        assert u.cells[i].outputs == w.cells[i].outputs;
      }
    }
  }

  lemma ClearKeepsScreen(capped: bool, a: Transcript, b: Transcript, wait: bool)
    requires SameButCurrent(a, b) && CurrentEmpty(a) && CurrentEmpty(b)
    ensures SameScreen(Apply(capped, a, ClearOutput(wait)), Apply(capped, b, ClearOutput(wait)))
  {
    SameCurrent(a, b);
    assert forall i :: 0 <= i < |a.cells| && !IsCurrent(a, i) ==> b.cells[i] == a.cells[i];
  }

  lemma ApplyKeepsScreen(capped: bool, a: Transcript, b: Transcript, msg: Message)
    requires SameScreen(a, b)
    ensures SameScreen(Apply(capped, a, msg), Apply(capped, b, msg))
  {
    if a != b {
      SameCurrent(a, b);
      assert SameButCurrent(b, a);
      if Updates(a, msg) {
        SameUpdates(a, b, msg);
        UpdateKeepsScreen(capped, a, b, msg);
      } else if Updates(b, msg) {
        SameUpdates(b, a, msg);
      } else if msg.ClearOutput? {
        ClearKeepsScreen(capped, a, b, msg.wait);
      } else if Quiet(a, msg) {
        OthersChangeNothing(capped, a, msg);
        OthersChangeNothing(capped, b, msg);
      } else {
        AddsAlike(capped, a, b, msg);
        if !HasCurrent(a) {
          WithoutCurrent(capped, a, msg);
          WithoutCurrent(capped, b, msg);
        }
      }
    }
  }

  lemma {:induction false} FoldKeepsScreen(capped: bool, a: Transcript, b: Transcript, msgs: seq<Message>)
    requires SameScreen(a, b)
    ensures SameScreen(Fold(capped, a, msgs), Fold(capped, b, msgs))
  {
    if msgs != [] {
      var init, msg := msgs[..|msgs| - 1], msgs[|msgs| - 1];
      FoldKeepsScreen(capped, a, b, init);
      ApplyKeepsScreen(capped, Fold(capped, a, init), Fold(capped, b, init), msg);
    }
  }

  /** After clear_output the current cell shows what comes after it, as if it had been empty. */
  lemma ClearOutputClears(capped: bool, t: Transcript, xs: seq<Message>, ys: seq<Message>)
    ensures SameScreen(Fold(capped, t, xs + [ClearOutput(false)] + ys), Fold(capped, Emptied(Fold(capped, t, xs)), ys))
  {
    var u, msg := Fold(capped, t, xs), ClearOutput(false);
    Plus(capped, t, xs + [msg], ys);
    Plus(capped, t, xs, [msg]);
    PlusOne(capped, u, msg);
    FoldKeepsScreen(capped, Apply(capped, u, msg), Emptied(u), ys);
  }

  /** None of the messages adds anything to what `t` shows. */
  ghost predicate NothingAdded(capped: bool, t: Transcript, msgs: seq<Message>) {
    forall i :: 0 <= i < |msgs| ==> Quiet(Fold(capped, t, msgs[..i]), msgs[i])
  }

  lemma UpdateKeepsMark(capped: bool, t: Transcript, msg: Message)
    requires Updates(t, msg)
    ensures Apply(capped, Marked(t), msg) == Marked(Apply(capped, t, msg))
  {
    var i, j :| 0 <= i < |t.cells| && 0 <= j < |t.cells[i].outputs|
                && Under(t.cells[i].outputs[j], msg.displayId.value);
    assert Under(Marked(t).cells[i].outputs[j], msg.displayId.value);
    UpdatesInPlace(capped, t, msg);
    UpdatesInPlace(capped, Marked(t), msg);
    var u, w := Apply(capped, Marked(t), msg), Marked(Apply(capped, t, msg));
    forall i | 0 <= i < |t.cells| ensures u.cells[i] == w.cells[i] {
      assert UpdatedCell(t.cells[i], Apply(capped, t, msg).cells[i], msg.mime.value, msg.displayId.value);
      assert UpdatedCell(Marked(t).cells[i], u.cells[i], msg.mime.value, msg.displayId.value);
      assert u.cells[i].outputs == w.cells[i].outputs;
    }
    assert u.cells == w.cells;
  }

  lemma QuietKeepsMark(capped: bool, t: Transcript, msg: Message)
    requires Quiet(t, msg)
    ensures Apply(capped, Marked(t), msg) == Marked(Apply(capped, t, msg))
  {
    if Updates(t, msg) {
      UpdateKeepsMark(capped, t, msg);
    } else if msg.ClearOutput? {
      assert Apply(capped, Marked(t), msg).cells == Marked(Apply(capped, t, msg)).cells;
    } else {
      OthersChangeNothing(capped, t, msg);
      OthersChangeNothing(capped, Marked(t), msg);
    }
  }

  lemma {:induction false} FoldKeepsMark(capped: bool, t: Transcript, msgs: seq<Message>)
    requires NothingAdded(capped, t, msgs)
    ensures Fold(capped, Marked(t), msgs) == Marked(Fold(capped, t, msgs))
  {
    if msgs != [] {
      var init, msg := msgs[..|msgs| - 1], msgs[|msgs| - 1];
      forall i | 0 <= i < |init| ensures Quiet(Fold(capped, t, init[..i]), init[i]) {
        assert init[..i] == msgs[..i] && init[i] == msgs[i];
      }
      FoldKeepsMark(capped, t, init);
      QuietKeepsMark(capped, Fold(capped, t, init), msg);
    }
  }

  /** clear_output with wait leaves everything as it would be without, for as long as nothing is added ... */
  lemma WaitingClearWaits(capped: bool, t: Transcript, xs: seq<Message>, ys: seq<Message>)
    requires NothingAdded(capped, Fold(capped, t, xs), ys)
    ensures Fold(capped, t, xs + [ClearOutput(true)] + ys) == Marked(Fold(capped, t, xs + ys))
  {
    var u, msg := Fold(capped, t, xs), ClearOutput(true);
    Plus(capped, t, xs + [msg], ys);
    Plus(capped, t, xs, [msg]);
    PlusOne(capped, u, msg);
    assert Apply(capped, u, msg).cells == Marked(u).cells;
    FoldKeepsMark(capped, u, ys);
    Plus(capped, t, xs, ys);
  }

  lemma AddsToMarked(capped: bool, t: Transcript, msg: Message)
    requires !Quiet(t, msg)
    ensures Apply(capped, Marked(t), msg) == Apply(capped, Emptied(t), msg)
  {
    var a, b := Marked(t), Emptied(t);
    NoNewUpdates(t, a, msg);
    NoNewUpdates(t, b, msg);
    AddsAlike(capped, a, b, msg);
    if !HasCurrent(a) {
      assert forall i :: 0 <= i < |t.cells| ==> !IsCurrent(a, i);
      assert forall i :: 0 <= i < |t.cells| ==> !IsCurrent(t, i);
      assert a.cells == b.cells;
    }
  }

  lemma NoNewUpdates(t: Transcript, u: Transcript, msg: Message)
    requires |u.cells| == |t.cells| && !Updates(t, msg)
    requires forall i :: 0 <= i < |t.cells| ==> u.cells[i].outputs == t.cells[i].outputs || u.cells[i].outputs == []
    ensures !Updates(u, msg)
  {
  }

  /** ... and the first message that adds something finds the cell empty. */
  lemma WaitingClearClears(capped: bool, t: Transcript, xs: seq<Message>, ys: seq<Message>, msg: Message,
                           zs: seq<Message>)
    requires NothingAdded(capped, Fold(capped, t, xs), ys) && !Quiet(Fold(capped, t, xs + ys), msg)
    ensures Fold(capped, t, xs + [ClearOutput(true)] + ys + [msg] + zs)
         == Fold(capped, Emptied(Fold(capped, t, xs + ys)), [msg] + zs)
  {
    var u := Fold(capped, t, xs + ys);
    WaitingClearWaits(capped, t, xs, ys);
    AddsToMarked(capped, u, msg);
    var all := xs + [ClearOutput(true)] + ys;
    Plus(capped, t, all + [msg], zs);
    Plus(capped, t, all, [msg]);
    PlusOne(capped, Marked(u), msg);
    Plus(capped, Emptied(u), [msg], zs);
    PlusOne(capped, Emptied(u), msg);
  }

  // ----- ids -----

  predicate Ascending(outputs: seq<Output>, bound: nat) {
    && (forall i, j :: 0 <= i < j < |outputs| ==> outputs[i].id < outputs[j].id)
    && (forall i :: 0 <= i < |outputs| ==> outputs[i].id < bound)
  }

  /** The outputs of a cell have ids of their own, ascending, and none is the next one. */
  predicate IdsFresh(t: Transcript) {
    forall i :: 0 <= i < |t.cells| ==> Ascending(t.cells[i].outputs, t.nextOutputId)
  }

  lemma AppendsFresh(t: Transcript, u: Transcript, o: Output)
    requires IdsFresh(t) && Appends(t, u, o) && o.id == t.nextOutputId
    ensures IdsFresh(u)
  {
  }

  lemma UpdatedFresh(t: Transcript, u: Transcript, mime: Mime, displayId: string)
    requires IdsFresh(t) && UpdatedIn(t, u, mime, displayId)
    ensures IdsFresh(u)
  {
    forall i | 0 <= i < |u.cells| ensures Ascending(u.cells[i].outputs, u.nextOutputId) {
      assert UpdatedCell(t.cells[i], u.cells[i], mime, displayId);
      assert forall j :: 0 <= j < |u.cells[i].outputs| ==> u.cells[i].outputs[j].id == t.cells[i].outputs[j].id;
    }
  }

  lemma StreamAscends(capped: bool, outputs: seq<Output>, id: nat, msg: Message)
    requires Ascending(outputs, id) && msg.Stream?
    ensures var (after, n) := StreamOutputs(capped, outputs, id, msg); Ascending(after, n) && id <= n
  {
  }

  lemma WithRunFresh(t: Transcript, outputs: seq<Output>, n: nat)
    requires IdsFresh(t) && Ascending(outputs, n) && t.nextOutputId <= n
    ensures IdsFresh(WithRun(t, outputs, n))
  {
  }

  lemma StreamFresh(capped: bool, t: Transcript, msg: Message)
    requires CurrentAlike(t) && IdsFresh(t) && msg.Stream?
    ensures IdsFresh(Apply(capped, t, msg))
  {
    var k := FindCell(t.cells, t.currentKey);
    if k.Some? {
      var outputs := Visible(t.cells[k.value]);
      StreamOnCurrent(capped, t, k.value, msg);
      assert Ascending(outputs, t.nextOutputId);
      StreamAscends(capped, outputs, t.nextOutputId, msg);
      var (after, n) := StreamOutputs(capped, outputs, t.nextOutputId, msg);
      WithRunFresh(t, after, n);
    }
  }

  lemma ApplyFresh(capped: bool, t: Transcript, msg: Message)
    requires CurrentAlike(t) && IdsFresh(t)
    ensures IdsFresh(Apply(capped, t, msg))
  {
    if msg.Stream? {
      StreamFresh(capped, t, msg);
    } else if Updates(t, msg) {
      UpdatesInPlace(capped, t, msg);
      UpdatedFresh(t, Apply(capped, t, msg), msg.mime.value, msg.displayId.value);
    } else if Added(msg, t.nextOutputId).Some? {
      AddsOneOutput(capped, t, msg);
      if HasCurrent(t) {
        AppendsFresh(t, Apply(capped, t, msg), Added(msg, t.nextOutputId).value);
      }
    }
  }

  /** Whatever comes, outputs have ids of their own. */
  lemma {:induction false} IdsStayFresh(capped: bool, t: Transcript, msgs: seq<Message>)
    requires CurrentAlike(t) && IdsFresh(t)
    ensures IdsFresh(Fold(capped, t, msgs))
  {
    if msgs != [] {
      var init := msgs[..|msgs| - 1];
      IdsStayFresh(capped, t, init);
      FoldKeepsAlike(capped, t, init);
      ApplyFresh(capped, Fold(capped, t, init), msgs[|msgs| - 1]);
    }
  }
}
