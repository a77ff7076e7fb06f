/**
 What an execution's history keeps of its messages (recordExecutionHistory() and
 boundStreamHistory() in lib/session/session-manager.ts): everything, but of stream text no more than
 the bound, dropping the oldest stream messages first and never the latest.
 */
module HistoryBounds {
  import opened Wrappers

  type MsgId = nat

  datatype Kind =
    | ExecuteInput(code: string, executionCount: Option<int>)
    | InputRequest
    | Stream(text: string)
    | Content(value: string)

  datatype Message = Message(parent: MsgId, kind: Kind)

  const MAX_HISTORY_STREAM_CHARS: nat := 500_000

  const MAX_EXECUTION_HISTORY_ENTRIES: nat := 200

  predicate IsStream(m: Message) {
    m.kind.Stream?
  }

  function StreamLength(m: Message): nat {
    if IsStream(m) then |m.kind.text| else 0
  }

  function StreamChars(messages: seq<Message>): nat {
    if messages == [] then 0 else StreamLength(messages[0]) + StreamChars(messages[1..])
  }

  /** The place of the first stream message; the length when there is none. */
  function FirstStream(messages: seq<Message>): (i: nat)
    ensures i <= |messages| && (i < |messages| ==> IsStream(messages[i]))
    ensures forall j :: 0 <= j < i ==> !IsStream(messages[j])
  {
    if messages == [] || IsStream(messages[0]) then 0 else 1 + FirstStream(messages[1..])
  }

  function DropFirstStream(messages: seq<Message>): seq<Message>
    requires FirstStream(messages) < |messages|
  {
    var i := FirstStream(messages);
    messages[..i] + messages[i + 1..]
  }

  function Streams(messages: seq<Message>): seq<Message> {
    if messages == [] then []
    else (if IsStream(messages[0]) then [messages[0]] else []) + Streams(messages[1..])
  }

  function Others(messages: seq<Message>): seq<Message> {
    if messages == [] then []
    else (if IsStream(messages[0]) then [] else [messages[0]]) + Others(messages[1..])
  }

  lemma {:induction false} StreamCharsAppend(a: seq<Message>, b: seq<Message>)
    ensures StreamChars(a + b) == StreamChars(a) + StreamChars(b)
  {
    if a == [] {
      assert a + b == b;
    } else {
      var whole := a + b;
      assert whole[1..] == a[1..] + b && whole[0] == a[0];
      StreamCharsAppend(a[1..], b);
    }
  }

  lemma {:induction false} StreamsAppend(a: seq<Message>, b: seq<Message>)
    ensures Streams(a + b) == Streams(a) + Streams(b)
  {
    if a == [] {
      assert a + b == b;
    } else {
      var whole := a + b;
      assert whole[1..] == a[1..] + b && whole[0] == a[0];
      StreamsAppend(a[1..], b);
      assert Streams(whole) == (if IsStream(a[0]) then [a[0]] else []) + Streams(whole[1..]);
    }
  }

  lemma {:induction false} OthersAppend(a: seq<Message>, b: seq<Message>)
    ensures Others(a + b) == Others(a) + Others(b)
  {
    if a == [] {
      assert a + b == b;
    } else {
      var whole := a + b;
      assert whole[1..] == a[1..] + b && whole[0] == a[0];
      OthersAppend(a[1..], b);
      assert Others(whole) == (if IsStream(a[0]) then [] else [a[0]]) + Others(whole[1..]);
    }
  }

  lemma Append(a: seq<Message>, b: seq<Message>)
    ensures StreamChars(a + b) == StreamChars(a) + StreamChars(b)
    ensures Streams(a + b) == Streams(a) + Streams(b)
    ensures Others(a + b) == Others(a) + Others(b)
  {
    StreamCharsAppend(a, b);
    StreamsAppend(a, b);
    OthersAppend(a, b);
  }

  lemma {:induction false} NoStreams(messages: seq<Message>)
    requires forall i :: 0 <= i < |messages| ==> !IsStream(messages[i])
    ensures StreamChars(messages) == 0 && Streams(messages) == [] && Others(messages) == messages
  {
    if messages != [] {
      NoStreams(messages[1..]);
    }
  }

  lemma StreamFirst(m: Message, back: seq<Message>)
    requires IsStream(m)
    ensures Streams([m] + back) == [m] + Streams(back)
    ensures Others([m] + back) == Others(back)
    ensures StreamChars([m] + back) == StreamLength(m) + StreamChars(back)
  {
    assert ([m] + back)[1..] == back;
  }

  lemma SplitAt(messages: seq<Message>, i: nat)
    requires i < |messages|
    ensures messages == messages[..i] + [messages[i]] + messages[i + 1..]
  {
  }

  /** Dropping the first stream message takes it from the streams and leaves the others. */
  lemma DropFirst(messages: seq<Message>)
    requires FirstStream(messages) < |messages|
    ensures Streams(messages) == [messages[FirstStream(messages)]] + Streams(DropFirstStream(messages))
    ensures Others(DropFirstStream(messages)) == Others(messages)
    ensures StreamChars(messages) ==
            StreamLength(messages[FirstStream(messages)]) + StreamChars(DropFirstStream(messages))
  {
    var i := FirstStream(messages);
    var front, m, back := messages[..i], messages[i], messages[i + 1..];
    SplitAt(messages, i);
    assert DropFirstStream(messages) == front + back;
    assert forall j :: 0 <= j < |front| ==> !IsStream(front[j]);
    SplitAtStream(messages, front, m, back);
  }

  lemma SplitAtStream(messages: seq<Message>, front: seq<Message>, m: Message, back: seq<Message>)
    requires messages == front + [m] + back && IsStream(m)
    requires forall i :: 0 <= i < |front| ==> !IsStream(front[i])
    ensures Streams(messages) == [m] + Streams(front + back)
    ensures Others(front + back) == Others(messages)
    ensures StreamChars(messages) == StreamLength(m) + StreamChars(front + back)
  {
    assert messages == front + ([m] + back);
    NoStreams(front);
    Append(front, [m] + back);
    Append(front, back);
    StreamFirst(m, back);
  }

  lemma {:induction false} StreamsOf(messages: seq<Message>)
    ensures Streams(messages) == [] <==> FirstStream(messages) == |messages|
    ensures |Streams(messages)| <= |messages|
  {
    if messages != [] {
      StreamsOf(messages[1..]);
    }
  }

  /** What is kept: while there is too much stream text, and another stream message, the first one goes. */
  function Bounded(messages: seq<Message>): seq<Message>
    decreases |messages|
  {
    if StreamChars(messages) > MAX_HISTORY_STREAM_CHARS && |Streams(messages)| > 1 then
      StreamsOf(messages);
      Bounded(DropFirstStream(messages))
    else messages
  }

  lemma FirstStreamIs(messages: seq<Message>, i: nat)
    requires i < |messages| && IsStream(messages[i]) && forall j :: 0 <= j < i ==> !IsStream(messages[j])
    ensures FirstStream(messages) == i
  {
  }

  lemma CutOneAppend(messages: seq<Message>, i: nat, m: Message)
    requires i < |messages|
    ensures (messages + [m])[..i] + (messages + [m])[i + 1..] == messages[..i] + messages[i + 1..] + [m]
  {
  }

  lemma FirstStreamAppend(messages: seq<Message>, m: Message)
    requires FirstStream(messages) < |messages|
    ensures FirstStream(messages + [m]) == FirstStream(messages)
    ensures DropFirstStream(messages + [m]) == DropFirstStream(messages) + [m]
  {
    var i := FirstStream(messages);
    var more := messages + [m];
    assert forall j :: 0 <= j <= i ==> more[j] == messages[j];
    FirstStreamIs(more, i);
    CutOneAppend(messages, i, m);
  }

  /** Bounding message by message comes to the same as bounding everything received at once. */
  lemma {:induction false} BoundedAppend(messages: seq<Message>, m: Message)
    ensures Bounded(Bounded(messages) + [m]) == Bounded(messages + [m])
    decreases |messages|
  {
    if StreamChars(messages) > MAX_HISTORY_STREAM_CHARS && |Streams(messages)| > 1 {
      StreamsOf(messages);
      FirstStreamAppend(messages, m);
      Append(messages, [m]);
      BoundedAppend(DropFirstStream(messages), m);
    }
  }

  lemma {:induction false} BoundedSettles(messages: seq<Message>)
    ensures Bounded(Bounded(messages)) == Bounded(messages)
    decreases |messages|
  {
    if StreamChars(messages) > MAX_HISTORY_STREAM_CHARS && |Streams(messages)| > 1 {
      StreamsOf(messages);
      BoundedSettles(DropFirstStream(messages));
    }
  }

  /** A message that is no stream message changes nothing about the bound. */
  lemma BoundedOther(messages: seq<Message>, m: Message)
    requires !IsStream(m)
    ensures Bounded(messages + [m]) == Bounded(messages) + [m]
  {
    BoundedAppend(messages, m);
    BoundedSettles(messages);
    Append(Bounded(messages), [m]);
    NoStreams([m]);
    var kept := Bounded(messages);
    if StreamChars(kept) > MAX_HISTORY_STREAM_CHARS && |Streams(kept)| > 1 {
      StreamsOf(kept);
      BoundedShrinks(DropFirstStream(kept));
    }
  }

  lemma {:induction false} BoundedShrinks(messages: seq<Message>)
    ensures |Bounded(messages)| <= |messages|
    decreases |messages|
  {
    if StreamChars(messages) > MAX_HISTORY_STREAM_CHARS && |Streams(messages)| > 1 {
      StreamsOf(messages);
      BoundedShrinks(DropFirstStream(messages));
    }
  }

  lemma {:induction false} BoundedOthers(messages: seq<Message>)
    ensures Others(Bounded(messages)) == Others(messages)
    ensures StreamChars(Bounded(messages)) <= MAX_HISTORY_STREAM_CHARS || |Streams(Bounded(messages))| == 1
    decreases |messages|
  {
    StreamsOf(messages);
    if StreamChars(messages) > MAX_HISTORY_STREAM_CHARS {
      if |Streams(messages)| > 1 {
        DropFirst(messages);
        BoundedOthers(DropFirstStream(messages));
      } else if |Streams(messages)| == 0 {
        NoStreams(messages);
      }
    }
  }

  /** `k` is how many stream messages go. */
  lemma {:induction false} BoundedStreams(messages: seq<Message>) returns (k: nat)
    ensures k <= |Streams(messages)| && Streams(Bounded(messages)) == Streams(messages)[k..]
    ensures k == 0 <==> Bounded(messages) == messages
    ensures k > 0 ==>
              StreamLength(Streams(messages)[k - 1]) + StreamChars(Bounded(messages)) > MAX_HISTORY_STREAM_CHARS
    decreases |messages|
  {
    if StreamChars(messages) > MAX_HISTORY_STREAM_CHARS && |Streams(messages)| > 1 {
      StreamsOf(messages);
      DropFirst(messages);
      var rest := DropFirstStream(messages);
      BoundedShrinks(rest);
      var j := BoundedStreams(rest);
      k := j + 1;
      assert Streams(messages)[k..] == Streams(rest)[j..];
      if j > 0 {
        assert Streams(messages)[k - 1] == Streams(rest)[j - 1];
      }
    } else {
      k := 0;
    }
  }

  /**
   Nothing but stream messages is dropped, the oldest of them; what stays is within the bound or one
   stream message, and with the latest one dropped it would not be.
   */
  lemma BoundedKeeps(messages: seq<Message>) returns (k: nat)
    ensures var kept := Bounded(messages);
            && Others(kept) == Others(messages)
            && k <= |Streams(messages)| && Streams(kept) == Streams(messages)[k..]
            && (StreamChars(kept) <= MAX_HISTORY_STREAM_CHARS || |Streams(kept)| == 1)
            && (k == 0 <==> kept == messages)
            && (k > 0 ==> StreamLength(Streams(messages)[k - 1]) + StreamChars(kept) > MAX_HISTORY_STREAM_CHARS)
  {
    k := BoundedStreams(messages);
    BoundedOthers(messages);
  }
}
