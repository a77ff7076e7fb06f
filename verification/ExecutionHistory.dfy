/**
 A session's bounded execution history as the object it is (recordExecutionHistory() and
 boundStreamHistory() in lib/session/session-manager.ts): a list of entries that grow in place, and a
 map from message ids to them. Its whole content is told from the messages recorded so far.
 */
module ExecutionHistories {
  import opened Wrappers
  import opened HistoryBounds

  // ----- what a list of messages comes to -----

  /** Where the entries start: the places of the execute_input messages. */
  function Inputs(recorded: seq<Message>): seq<nat> {
    if recorded == [] then []
    else
      var n := |recorded| - 1;
      Inputs(recorded[..n]) + if recorded[n].kind.ExecuteInput? then [n] else []
  }

  /** The latest of them are listed. */
  function Listed(recorded: seq<Message>): seq<nat> {
    var inputs := Inputs(recorded);
    if |inputs| > MAX_EXECUTION_HISTORY_ENTRIES then inputs[|inputs| - MAX_EXECUTION_HISTORY_ENTRIES..] else inputs
  }

  /** The place of the latest execute_input with this id. */
  function LastInput(recorded: seq<Message>, id: MsgId): Option<nat> {
    if recorded == [] then None
    else
      var n := |recorded| - 1;
      if recorded[n].kind.ExecuteInput? && recorded[n].parent == id then Some(n) else LastInput(recorded[..n], id)
  }

  /** What belongs to the entry at `at`: messages with its id, until another entry takes the id over. */
  function Routed(recorded: seq<Message>, at: nat): seq<Message>
    requires at < |recorded|
  {
    var n := |recorded| - 1;
    if at == n then []
    else
      Routed(recorded[..n], at) + if Follows(recorded[..n], recorded[n], at) then [recorded[n]] else []
  }

  predicate Follows(before: seq<Message>, m: Message, at: nat) {
    !m.kind.ExecuteInput? && !m.kind.InputRequest? && LastInput(before, m.parent) == Some(at)
  }

  lemma {:induction false} InputsAreInputs(recorded: seq<Message>)
    ensures forall i :: 0 <= i < |Inputs(recorded)| ==>
              Inputs(recorded)[i] < |recorded| && recorded[Inputs(recorded)[i]].kind.ExecuteInput?
    ensures forall i, j :: 0 <= i < j < |Inputs(recorded)| ==> Inputs(recorded)[i] < Inputs(recorded)[j]
  {
    if recorded != [] {
      InputsAreInputs(recorded[..|recorded| - 1]);
    }
  }

  lemma {:induction false} LastInputIsInput(recorded: seq<Message>, id: MsgId)
    ensures var at := LastInput(recorded, id);
            at.Some? ==>
              at.value < |recorded| && recorded[at.value].kind.ExecuteInput? && recorded[at.value].parent == id
  {
    if recorded != [] {
      LastInputIsInput(recorded[..|recorded| - 1], id);
    }
  }

  /** One more message: what it does to the lists of places. */
  lemma OneMore(recorded: seq<Message>, m: Message)
    ensures var more := recorded + [m];
            && Inputs(more) == Inputs(recorded) + (if m.kind.ExecuteInput? then [|recorded|] else [])
            && (forall id :: LastInput(more, id) ==
                  if m.kind.ExecuteInput? && m.parent == id then Some(|recorded|) else LastInput(recorded, id))
            && (forall at :: 0 <= at < |recorded| ==>
                  Routed(more, at) == Routed(recorded, at) + if Follows(recorded, m, at) then [m] else [])
            && Routed(more, |recorded|) == []
  {
    assert (recorded + [m])[..|recorded|] == recorded;
  }

  lemma RoutedTo(recorded: seq<Message>, m: Message, at: nat)
    requires at < |recorded| && Follows(recorded, m, at)
    ensures forall id :: LastInput(recorded + [m], id) == LastInput(recorded, id)
    ensures Routed(recorded + [m], at) == Routed(recorded, at) + [m]
    ensures forall other :: 0 <= other < |recorded| && other != at ==>
              Routed(recorded + [m], other) == Routed(recorded, other)
  {
    OneMore(recorded, m);
  }

  lemma ListedOneMore(recorded: seq<Message>, m: Message)
    ensures var listed := Listed(recorded) + (if m.kind.ExecuteInput? then [|recorded|] else []);
            Listed(recorded + [m]) ==
              if |listed| > MAX_EXECUTION_HISTORY_ENTRIES then listed[1..] else listed
  {
    OneMore(recorded, m);
  }

  lemma ListedKept(recorded: seq<Message>, m: Message)
    requires !m.kind.ExecuteInput?
    ensures Listed(recorded + [m]) == Listed(recorded)
  {
    OneMore(recorded, m);
  }

  // ----- the objects -----

  class Entry {
    const code: string
    const executionCount: Option<int>
    var messages: seq<Message>
    var truncated: bool
    /** The characters of its stream messages (historyStreamChars). */
    var streamChars: nat
    /** Which of the recorded messages started it. */
    ghost const at: nat

    constructor (m: Message, ghost at: nat)
      requires m.kind.ExecuteInput?
      ensures code == m.kind.code && executionCount == m.kind.executionCount && this.at == at
      ensures messages == [] && !truncated && streamChars == 0
    {
      code, executionCount, this.at := m.kind.code, m.kind.executionCount, at;
      messages, truncated, streamChars := [], false, 0;
    }

    /** What an entry holds, of all that was routed to it. */
    ghost predicate Holds(routed: seq<Message>)
      reads this
    {
      && messages == Bounded(routed) && streamChars == StreamChars(messages)
      && (truncated <==> messages != routed)
    }

    /** It holds all that was routed to it, as bounded. */
    ghost predicate Keeps(recorded: seq<Message>)
      reads this
    {
      at < |recorded| && Holds(Routed(recorded, at))
    }

    /** A message for this entry; stream messages bring it back within the bound. */
    method Add(m: Message, ghost routed: seq<Message>)
      requires Holds(routed)
      modifies this
      ensures Holds(routed + [m])
    {
      BoundedAppend(routed, m);
      BoundedShrinks(routed);
      SameButLast(messages, routed, m);
      messages := messages + [m];
      Append(old(messages), [m]);
      assert StreamChars([m]) == StreamLength(m) by {
        assert [m][1..] == [];
      }
      if IsStream(m) {
        BoundStream(StreamLength(m), routed + [m]);
      } else {
        BoundedOther(routed, m);
      }
    }

    /** Drops the oldest stream messages until the rest is within the bound. */
    method BoundStream(added: nat, ghost routed: seq<Message>)
      requires messages != [] && IsStream(messages[|messages| - 1]) && streamChars + added == StreamChars(messages)
      requires Bounded(messages) == Bounded(routed) && |messages| <= |routed| && (truncated <==> messages != routed)
      modifies this
      ensures Holds(routed)
    {
      var total := streamChars + added;
      while total > MAX_HISTORY_STREAM_CHARS
        invariant messages != [] && IsStream(messages[|messages| - 1])
        invariant total == StreamChars(messages) && Bounded(messages) == Bounded(routed)
        invariant |messages| <= |routed| && (truncated <==> messages != routed)
        decreases |messages|
      {
        var index := FirstStream(messages);
        if index == |messages| - 1 {
          OnlyLastStream(messages);
          break;
        }
        CutFirstStream(messages);
        total := total - StreamLength(messages[index]);
        messages := DropFirstStream(messages);
        truncated := true;
      }
      streamChars := total;
    }
  }

  lemma SameButLast(a: seq<Message>, b: seq<Message>, m: Message)
    ensures a + [m] == b + [m] <==> a == b
  {
    assert a == (a + [m])[..|a|] && b == (b + [m])[..|b|];
    if a + [m] == b + [m] {
      assert |a + [m]| == |b + [m]|;
    }
  }

  /** One step of the bound. */
  lemma CutFirstStream(messages: seq<Message>)
    requires messages != [] && IsStream(messages[|messages| - 1]) && FirstStream(messages) != |messages| - 1
    requires StreamChars(messages) > MAX_HISTORY_STREAM_CHARS
    ensures FirstStream(messages) < |messages|
    ensures DropFirstStream(messages) != [] && IsStream(DropFirstStream(messages)[|messages| - 2])
    ensures |DropFirstStream(messages)| == |messages| - 1
    ensures StreamChars(messages) ==
            StreamLength(messages[FirstStream(messages)]) + StreamChars(DropFirstStream(messages))
    ensures Bounded(messages) == Bounded(DropFirstStream(messages))
  {
    assert FirstStream(messages) < |messages|;
    DropFirst(messages);
    assert |Streams(messages)| > 1 by {
      LaterStream(messages);
    }
    assert DropFirstStream(messages)[|messages| - 2] == messages[|messages| - 1];
  }

  lemma OnlyLastStream(messages: seq<Message>)
    requires FirstStream(messages) == |messages| - 1
    ensures |Streams(messages)| == 1 && Bounded(messages) == messages
  {
    var last := |messages| - 1;
    NoStreams(messages[..last]);
    Append(messages[..last], [messages[last]]);
    assert messages == messages[..last] + [messages[last]];
    assert [messages[last]][1..] == [];
  }

  lemma LaterStream(messages: seq<Message>)
    requires FirstStream(messages) < |messages| - 1 && IsStream(messages[|messages| - 1])
    ensures |Streams(messages)| > 1
  {
    DropFirst(messages);
    var rest := DropFirstStream(messages);
    assert rest[|rest| - 1] == messages[|messages| - 1];
    StreamsOf(rest);
  }

  /** A list of entries at these places, and a map that leads to the one that took an id last, never out of the list. */
  ghost predicate Shape(list: seq<Entry>, byId: map<MsgId, Entry>, recorded: seq<Message>, places: seq<nat>) {
    && |list| == |places|
    && (forall i :: 0 <= i < |list| ==>
          && list[i].at == places[i] < |recorded| && recorded[list[i].at].kind.ExecuteInput?
          && list[i].code == recorded[list[i].at].kind.code
          && list[i].executionCount == recorded[list[i].at].kind.executionCount)
    && (forall i, j :: 0 <= i < j < |list| ==> list[i].at < list[j].at)
    && (forall id :: id in byId ==> byId[id] in list && LastInput(recorded, id) == Some(byId[id].at))
    && (forall i, id :: 0 <= i < |list| && LastInput(recorded, id) == Some(list[i].at) ==> id in byId)
  }

  lemma ShapeKept(list: seq<Entry>, byId: map<MsgId, Entry>, recorded: seq<Message>, places: seq<nat>, m: Message)
    requires Shape(list, byId, recorded, places) && !m.kind.ExecuteInput?
    ensures Shape(list, byId, recorded + [m], places)
  {
    OneMore(recorded, m);
  }

  /** A message that leads to no entry leaves what was routed to each as it was. */
  lemma RoutedNowhere(list: seq<Entry>, byId: map<MsgId, Entry>, recorded: seq<Message>, places: seq<nat>, m: Message)
    requires Shape(list, byId, recorded, places) && !m.kind.ExecuteInput?
    requires m.kind.InputRequest? || m.parent !in byId
    ensures forall i :: 0 <= i < |list| ==> Routed(recorded + [m], list[i].at) == Routed(recorded, list[i].at)
  {
    OneMore(recorded, m);
    forall i | 0 <= i < |list| ensures Routed(recorded + [m], list[i].at) == Routed(recorded, list[i].at) {
      assert !Follows(recorded, m, list[i].at);
    }
  }

  class ExecutionHistory {
    var list: seq<Entry>
    var byId: map<MsgId, Entry>
    /** Every message so far. */
    ghost var recorded: seq<Message>

    ghost predicate Valid()
      reads this, list
    {
      Listing(Listed(recorded))
    }

    /** The list is of the execute_input messages at these places, each entry with what it holds. */
    ghost predicate Listing(places: seq<nat>)
      reads this, list
    {
      && Shape(list, byId, recorded, places)
      && forall i {:trigger list[i].Keeps(recorded)} :: 0 <= i < |list| ==> list[i].Keeps(recorded)
    }

    constructor ()
      ensures Valid() && recorded == [] && list == []
    {
      list, byId, recorded := [], map[], [];
    }

    /** Any message: a new entry, nothing, or one more in the entry its id leads to. */
    method RecordExecutionHistory(m: Message)
      requires Valid()
      modifies this, list
      ensures Valid() && recorded == old(recorded) + [m]
    {
      OneMore(recorded, m);
      ListedOneMore(recorded, m);
      if m.kind.ExecuteInput? {
        StartEntry(m);
      } else {
        Route(m);
      }
    }

    method Route(m: Message)
      requires Valid() && !m.kind.ExecuteInput?
      modifies this`recorded, list
      ensures Valid() && recorded == old(recorded) + [m]
    {
      ListedKept(recorded, m);
      ShapeKept(list, byId, recorded, Listed(recorded), m);
      if !m.kind.InputRequest? && m.parent in byId {
        AddTo(byId[m.parent], m);
      } else {
        Unmoved(m);
      }
      recorded := recorded + [m];
    }

    /** A message that leads to no entry changes none. */
    lemma Unmoved(m: Message)
      requires Valid() && !m.kind.ExecuteInput? && (m.kind.InputRequest? || m.parent !in byId)
      ensures forall i {:trigger list[i].Keeps(recorded + [m])} :: 0 <= i < |list| ==> list[i].Keeps(recorded + [m])
    {
      RoutedNowhere(list, byId, recorded, Listed(recorded), m);
      forall i | 0 <= i < |list| ensures list[i].Keeps(recorded + [m]) {
        assert list[i].Keeps(recorded);
      }
    }

    /** The message goes to the entry its id leads to; the others stay as they are. */
    method AddTo(entry: Entry, m: Message)
      requires Valid() && !m.kind.ExecuteInput? && !m.kind.InputRequest? && m.parent in byId && byId[m.parent] == entry
      modifies entry
      ensures forall i {:trigger list[i].Keeps(recorded + [m])} :: 0 <= i < |list| ==> list[i].Keeps(recorded + [m])
    {
      RoutedTo(recorded, m, entry.at);
      forall i | 0 <= i < |list| ensures list[i].Keeps(recorded) {
      }
      entry.Add(m, Routed(recorded, entry.at));
      forall i | 0 <= i < |list| ensures list[i].Keeps(recorded + [m]) {
        if list[i] != entry {
          assert old(list[i].Keeps(recorded)) && list[i].at != entry.at;
        }
      }
    }

    method StartEntry(m: Message)
      requires Valid() && m.kind.ExecuteInput?
      modifies this
      ensures Valid() && recorded == old(recorded) + [m]
    {
      ListedOneMore(recorded, m);
      Append(m);
      if |list| > MAX_EXECUTION_HISTORY_ENTRIES {
        RemoveFirst(Listed(old(recorded)) + [|old(recorded)|]);
      }
    }

    method Append(m: Message)
      requires Valid() && m.kind.ExecuteInput?
      modifies this
      ensures recorded == old(recorded) + [m] && Listing(Listed(old(recorded)) + [|old(recorded)|])
    {
      OneMore(recorded, m);
      forall id ensures LastInput(recorded, id) != Some(|recorded|) {
        LastInputIsInput(recorded, id);
      }
      forall i | 0 <= i < |list| ensures list[i].Keeps(recorded + [m]) {
        assert list[i].Keeps(recorded);
        assert Routed(recorded, list[i].at) + [] == Routed(recorded, list[i].at);
      }
      var entry := new Entry(m, |recorded|);
      assert entry.Keeps(recorded + [m]);
      list := list + [entry];
      byId := byId[m.parent := entry];
      recorded := recorded + [m];
      forall i | 0 <= i < |list| ensures list[i].Keeps(recorded) {
        if list[i] != entry {
          assert list[i].Keeps(old(recorded) + [m]);
        }
      }
    }

    method RemoveFirst(ghost places: seq<nat>)
      requires list != [] && Listing(places)
      modifies this`list, this`byId
      ensures Listing(places[1..]) && list == old(list)[1..]
    {
      forall a, b | a in byId && b in byId && byId[a] == list[0] && byId[b] == list[0] ensures a == b {
        LastInputIsInput(recorded, a);
        LastInputIsInput(recorded, b);
      }
      var removed := list[0];
      ghost var before := list;
      list := list[1..];
      Forget(removed);
      forall i | 0 <= i < |list| ensures list[i].Keeps(recorded) {
        assert before[i + 1].Keeps(recorded);
      }
    }

    /** Takes a removed entry out of the map; it is there under one id at most. */
    method Forget(removed: Entry)
      modifies this`byId
      ensures forall id :: id in byId <==> id in old(byId) && old(byId)[id] != removed
      ensures forall id :: id in byId ==> byId[id] == old(byId)[id]
      requires forall a, b :: a in byId && b in byId && byId[a] == removed && byId[b] == removed ==> a == b
    {
      var ids := byId.Keys;
      while ids != {}
        invariant ids <= byId.Keys && byId == old(byId)
        invariant forall id :: id in byId && id !in ids ==> byId[id] != removed
        decreases ids
      {
        var id :| id in ids;
        if byId[id] == removed {
          byId := byId - {id};
          break;
        }
        ids := ids - {id};
      }
    }
  }

  /** The bounds on a history, whatever was recorded. */
  lemma WithinBounds(h: ExecutionHistory)
    requires h.Valid()
    ensures |h.list| <= MAX_EXECUTION_HISTORY_ENTRIES
    ensures |h.list| == |Inputs(h.recorded)| || |h.list| == MAX_EXECUTION_HISTORY_ENTRIES
    ensures forall id :: id in h.byId ==> h.byId[id] in h.list
  {
  }

  /**
   What one entry holds of everything routed to it: all that is no stream text, and of the stream
   messages the latest, in order; its count is their text's length, and within the bound unless one is left.
   */
  lemma EntryHolds(h: ExecutionHistory, i: nat) returns (k: nat)
    requires h.Valid() && i < |h.list|
    ensures var e := h.list[i];
            && e.at < |h.recorded|
            && var routed := Routed(h.recorded, e.at);
               && Others(e.messages) == Others(routed)
               && k <= |Streams(routed)| && Streams(e.messages) == Streams(routed)[k..]
               && e.streamChars == StreamChars(e.messages)
               && (e.streamChars <= MAX_HISTORY_STREAM_CHARS || |Streams(e.messages)| == 1)
               && (e.truncated <==> k > 0)
  {
    assert h.list[i].Keeps(h.recorded);
    k := BoundedKeeps(Routed(h.recorded, h.list[i].at));
  }
}
