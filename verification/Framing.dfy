/**
 Frames of an outbox (native/src/themisto/outbox.hpp): messages joined by newlines, up to kFrameBytes
 each, and what a client gets that splits a frame at its newlines (connect() in
 lib/session/session-manager.ts). Joining loses nothing but empty texts, and no split of a batch
 into allowed frames uses fewer than the greedy one.
 */
module Framing {
  const K_FRAME_BYTES: nat := 0x10_0000

  const NL: char := '\n'

  // ----- splitting -----

  /** What one character in front does to the pieces of a text. */
  function Grow(c: char, pieces: seq<string>): seq<string>
    requires pieces != []
  {
    if c == NL then [""] + pieces else [[c] + pieces[0]] + pieces[1..]
  }

  /** The pieces of `text` between newlines, as String.split('\n') gives them. */
  function Split(text: string): (pieces: seq<string>)
    ensures pieces != []
  {
    if text == [] then [""] else Grow(text[0], Split(text[1..]))
  }

  function NonEmpty(pieces: seq<string>): seq<string> {
    if pieces == [] then []
    else (if pieces[0] == "" then [] else [pieces[0]]) + NonEmpty(pieces[1..])
  }

  /** What the client hands on for one frame: its non-empty lines. */
  function Lines(text: string): seq<string> {
    NonEmpty(Split(text))
  }

  function LinesOf(texts: seq<string>): seq<string> {
    if texts == [] then [] else Lines(texts[0]) + LinesOf(texts[1..])
  }

  /** A text that a client gets back as it was sent: one non-empty line (JSON is). */
  predicate IsLine(text: string) {
    text != "" && NL !in text
  }

  // ----- joining -----

  /** A frame with one more text appended; an empty frame is the text itself. */
  function Join(frame: string, text: string): string {
    if frame == "" then text else frame + [NL] + text
  }

  function JoinAll(texts: seq<string>): string {
    if texts == [] then "" else Join(JoinAll(texts[..|texts| - 1]), texts[|texts| - 1])
  }

  lemma GrowAppend(c: char, p: seq<string>, q: seq<string>)
    requires p != []
    ensures Grow(c, p + q) == Grow(c, p) + q
  {
    assert (p + q)[1..] == p[1..] + q;
  }

  lemma {:induction false} SplitAppend(a: string, b: string)
    ensures Split(a + [NL] + b) == Split(a) + Split(b)
  {
    var whole := a + [NL] + b;
    if a == [] {
      assert whole == [NL] + b && whole[1..] == b;
    } else {
      SplitAppend(a[1..], b);
      assert whole[1..] == a[1..] + [NL] + b && whole[0] == a[0];
      GrowAppend(a[0], Split(a[1..]), Split(b));
    }
  }

  lemma {:induction false} NonEmptyAppend(p: seq<string>, q: seq<string>)
    ensures NonEmpty(p + q) == NonEmpty(p) + NonEmpty(q)
  {
    if p == [] {
      assert p + q == q;
    } else {
      NonEmptyAppend(p[1..], q);
      var whole := p + q;
      assert whole[1..] == p[1..] + q && whole[0] == p[0];
    }
  }

  /** Joining and splitting lose nothing: the lines of a joined frame are its parts' lines. */
  lemma LinesOfJoin(frame: string, text: string)
    ensures Lines(Join(frame, text)) == Lines(frame) + Lines(text)
  {
    if frame == "" {
      assert Lines(frame) == [];
    } else {
      SplitAppend(frame, text);
      NonEmptyAppend(Split(frame), Split(text));
    }
  }

  lemma {:induction false} LinesOfAppend(a: seq<string>, b: seq<string>)
    ensures LinesOf(a + b) == LinesOf(a) + LinesOf(b)
  {
    if a == [] {
      assert a + b == b;
    } else {
      LinesOfAppend(a[1..], b);
      var whole := a + b;
      assert whole[1..] == a[1..] + b && whole[0] == a[0];
      assert LinesOf(whole) == Lines(a[0]) + LinesOf(whole[1..]);
    }
  }

  lemma LinesOfOne(text: string)
    ensures LinesOf([text]) == Lines(text)
  {
    assert LinesOf([text][1..]) == [];
  }

  lemma {:induction false} SplitPieces(text: string)
    ensures forall i :: 0 <= i < |Split(text)| ==> NL !in Split(text)[i]
    ensures NL !in text ==> Split(text) == [text]
  {
    if text != [] {
      SplitPieces(text[1..]);
      if NL !in text {
        assert text == [text[0]] + text[1..];
      }
    }
  }

  lemma {:induction false} NonEmptyPieces(pieces: seq<string>)
    requires forall i :: 0 <= i < |pieces| ==> NL !in pieces[i]
    ensures forall line :: line in NonEmpty(pieces) ==> IsLine(line)
  {
    if pieces != [] {
      NonEmptyPieces(pieces[1..]);
    }
  }

  lemma LinesAreLines(text: string)
    ensures forall line :: line in Lines(text) ==> IsLine(line)
    ensures IsLine(text) ==> Lines(text) == [text]
  {
    SplitPieces(text);
    NonEmptyPieces(Split(text));
    if IsLine(text) {
      assert Split(text) == [text];
      assert NonEmpty([text][1..]) == [];
    }
  }

  lemma {:induction false} LinesOfAreLines(texts: seq<string>)
    ensures forall line :: line in LinesOf(texts) ==> IsLine(line)
  {
    if texts != [] {
      LinesAreLines(texts[0]);
      LinesOfAreLines(texts[1..]);
    }
  }

  lemma {:induction false} LinesOfLines(texts: seq<string>)
    requires forall text :: text in texts ==> IsLine(text)
    ensures LinesOf(texts) == texts
  {
    if texts != [] {
      LinesAreLines(texts[0]);
      LinesOfLines(texts[1..]);
      assert texts == [texts[0]] + texts[1..];
    }
  }

  /** A list of texts survives joining and splitting exactly when each is one non-empty line. */
  lemma LinesOfIsIdentityIff(texts: seq<string>)
    ensures LinesOf(texts) == texts <==> forall text :: text in texts ==> IsLine(text)
  {
    LinesOfAreLines(texts);
    if forall text :: text in texts ==> IsLine(text) {
      LinesOfLines(texts);
    }
  }

  // ----- the greedy split of a batch -----

  /** Whether the open frame has to go out before `text` is added. */
  predicate TooLong(frame: string, text: string) {
    frame != "" && |frame| + |text| + 1 > K_FRAME_BYTES
  }

  /** The frames sent for `batch`, in order, when `frame` is open: each is sent when the next text no longer fits. */
  function Frames(frame: string, batch: seq<string>): seq<string>
    decreases |batch|
  {
    if batch == [] then (if frame == "" then [] else [frame])
    else if TooLong(frame, batch[0])
    then [frame] + Frames(batch[0], batch[1..])
    else Frames(Join(frame, batch[0]), batch[1..])
  }

  lemma {:induction false} FramesLines(frame: string, batch: seq<string>)
    ensures LinesOf(Frames(frame, batch)) == Lines(frame) + LinesOf(batch)
    decreases |batch|
  {
    if batch == [] {
      LinesOfOne(frame);
      assert LinesOf([]) == [];
    } else if TooLong(frame, batch[0]) {
      FramesLines(batch[0], batch[1..]);
      assert ([frame] + Frames(batch[0], batch[1..]))[1..] == Frames(batch[0], batch[1..]);
    } else {
      FramesLines(Join(frame, batch[0]), batch[1..]);
      LinesOfJoin(frame, batch[0]);
    }
  }

  /** A frame that may be sent: one message, or no longer than the limit. */
  predicate Allowed(frame: string, batch: seq<string>) {
    |frame| <= K_FRAME_BYTES || frame in batch
  }

  lemma {:induction false} FramesAllowed(frame: string, batch: seq<string>, all: seq<string>)
    requires Allowed(frame, all) && forall text :: text in batch ==> text in all
    ensures forall f :: f in Frames(frame, batch) ==> Allowed(f, all) && f != ""
    decreases |batch|
  {
    if batch != [] {
      assert batch[0] in batch;
      assert forall text :: text in batch[1..] ==> text in batch;
      if TooLong(frame, batch[0]) {
        FramesAllowed(batch[0], batch[1..], all);
      } else {
        FramesAllowed(Join(frame, batch[0]), batch[1..], all);
      }
    }
  }

  // ----- and no split does better -----

  /** A split of a batch, in order, into groups that are each one message or fit a frame when joined. */
  ghost predicate IsSplit(groups: seq<seq<string>>, batch: seq<string>) {
    if groups == [] then batch == []
    else
      && groups[0] != [] && groups[0] <= batch
      && (|groups[0]| == 1 || |JoinAll(groups[0])| <= K_FRAME_BYTES)
      && IsSplit(groups[1..], batch[|groups[0]|..])
  }

  /** How many frames the greedy split sends, by the length of the open frame alone. */
  function Count(open: nat, batch: seq<string>): nat
    decreases |batch|
  {
    if batch == [] then (if open == 0 then 0 else 1)
    else if open != 0 && open + |batch[0]| + 1 > K_FRAME_BYTES then 1 + Count(|batch[0]|, batch[1..])
    else Count(if open == 0 then |batch[0]| else open + 1 + |batch[0]|, batch[1..])
  }

  lemma {:induction false} FramesCount(frame: string, batch: seq<string>)
    ensures |Frames(frame, batch)| == Count(|frame|, batch)
    decreases |batch|
  {
    if batch != [] {
      if TooLong(frame, batch[0]) {
        FramesCount(batch[0], batch[1..]);
      } else {
        FramesCount(Join(frame, batch[0]), batch[1..]);
      }
    }
  }

  /** A longer open frame costs at most one frame more, and never less. */
  lemma {:induction false} CountMonotone(a: nat, b: nat, batch: seq<string>)
    requires a <= b
    ensures Count(a, batch) <= Count(b, batch) <= Count(a, batch) + 1
    decreases |batch|
  {
    if batch != [] {
      var n := |batch[0]|;
      var a' := if a == 0 then n else a + 1 + n;
      var b' := if b == 0 then n else b + 1 + n;
      CountMonotone(a', b', batch[1..]);
      CountMonotone(n, a', batch[1..]);
      CountMonotone(n, b', batch[1..]);
    }
  }

  function JoinedLength(open: nat, texts: seq<string>): nat
    decreases |texts|
  {
    if texts == [] then open
    else JoinedLength(if open == 0 then |texts[0]| else open + 1 + |texts[0]|, texts[1..])
  }

  lemma {:induction false} JoinedLengthGrows(open: nat, texts: seq<string>)
    ensures open <= JoinedLength(open, texts)
    decreases |texts|
  {
    if texts != [] {
      JoinedLengthGrows(if open == 0 then |texts[0]| else open + 1 + |texts[0]|, texts[1..]);
    }
  }

  lemma {:induction false} JoinedLengthSnoc(open: nat, texts: seq<string>, last: string)
    ensures var n := JoinedLength(open, texts);
            JoinedLength(open, texts + [last]) == if n == 0 then |last| else n + 1 + |last|
    decreases |texts|
  {
    if texts == [] {
      assert texts + [last] == [last] && [last][1..] == [];
    } else {
      assert (texts + [last])[1..] == texts[1..] + [last];
      JoinedLengthSnoc(if open == 0 then |texts[0]| else open + 1 + |texts[0]|, texts[1..], last);
    }
  }

  lemma {:induction false} JoinAllLength(texts: seq<string>)
    ensures |JoinAll(texts)| == JoinedLength(0, texts)
    decreases |texts|
  {
    if texts != [] {
      var init, last := texts[..|texts| - 1], texts[|texts| - 1];
      JoinAllLength(init);
      JoinedLengthSnoc(0, init, last);
      assert texts == init + [last];
    }
  }

  /** A group that fits one frame goes by without a frame being sent in between. */
  lemma {:induction false} CountGroup(open: nat, group: seq<string>, rest: seq<string>)
    requires JoinedLength(open, group) <= K_FRAME_BYTES
    ensures Count(open, group + rest) == Count(JoinedLength(open, group), rest)
    decreases |group|
  {
    if group == [] {
      assert group + rest == rest;
    } else {
      var next := if open == 0 then |group[0]| else open + 1 + |group[0]|;
      assert (group + rest)[1..] == group[1..] + rest;
      JoinedLengthGrows(next, group[1..]);
      CountGroup(next, group[1..], rest);
    }
  }

  /** No split of the batch uses fewer frames than are sent for it. */
  lemma {:induction false} GreedyIsOptimal(batch: seq<string>, groups: seq<seq<string>>)
    requires IsSplit(groups, batch)
    ensures |Frames("", batch)| <= |groups|
    decreases |groups|
  {
    FramesCount("", batch);
    if groups != [] {
      var group, rest := groups[0], batch[|groups[0]|..];
      assert batch == group + rest;
      GreedyIsOptimal(rest, groups[1..]);
      FramesCount("", rest);
      if |group| == 1 {
        assert batch[1..] == rest;
        CountMonotone(0, |group[0]|, rest);
      } else {
        JoinAllLength(group);
        CountGroup(0, group, rest);
        CountMonotone(0, JoinedLength(0, group), rest);
      }
    }
  }
}
