/**
 Which entries a session's history lists and what belongs to each (recordExecutionHistory() in
 lib/session/session-manager.ts), told by the places of the recorded messages.
 */
module HistoryLaws {
  import opened Wrappers
  import opened HistoryBounds
  import opened ExecutionHistories

  // ----- which entries are listed -----

  /** How many executions start among these messages. */
  function Starts(recorded: seq<Message>): nat {
    if recorded == [] then 0 else (if recorded[0].kind.ExecuteInput? then 1 else 0) + Starts(recorded[1..])
  }

  lemma {:induction false} StartsAppend(a: seq<Message>, b: seq<Message>)
    ensures Starts(a + b) == Starts(a) + Starts(b)
  {
    if a == [] {
      assert a + b == b;
    } else {
      assert (a + b)[1..] == a[1..] + b;
      StartsAppend(a[1..], b);
    }
  }

  lemma {:induction false} InputsAreStarts(recorded: seq<Message>)
    ensures |Inputs(recorded)| == Starts(recorded)
    ensures forall at :: at in Inputs(recorded) <==> 0 <= at < |recorded| && recorded[at].kind.ExecuteInput?
  {
    if recorded != [] {
      var n := |recorded| - 1;
      InputsAreStarts(recorded[..n]);
      StartsAppend(recorded[..n], recorded[n..]);
      assert recorded == recorded[..n] + recorded[n..] && recorded[n..][1..] == [];
    }
  }

  lemma {:induction false} InputHasBefore(recorded: seq<Message>, k: nat)
    requires k < |Inputs(recorded)|
    ensures Inputs(recorded)[k] < |recorded| && Starts(recorded[..Inputs(recorded)[k]]) == k
  {
    var n := |recorded| - 1;
    InputsAreStarts(recorded[..n]);
    if k < |Inputs(recorded[..n])| {
      InputHasBefore(recorded[..n], k);
      var at := Inputs(recorded[..n])[k];
      assert recorded[..n][..at] == recorded[..at];
    }
  }

  /** How many start after the `k`th. */
  lemma StartsAfter(recorded: seq<Message>, k: nat)
    requires k < |Inputs(recorded)|
    ensures var at := Inputs(recorded)[k];
            at < |recorded| && Starts(recorded[at + 1..]) == |Inputs(recorded)| - 1 - k
  {
    var at := Inputs(recorded)[k];
    InputsAreStarts(recorded);
    InputHasBefore(recorded, k);
    assert at in Inputs(recorded);
    CutAt(recorded, at);
  }

  lemma CutAt(recorded: seq<Message>, at: nat)
    requires at < |recorded| && recorded[at].kind.ExecuteInput?
    ensures Starts(recorded) == Starts(recorded[..at]) + 1 + Starts(recorded[at + 1..])
  {
    StartsAppend(recorded[..at], recorded[at..]);
    assert recorded == recorded[..at] + recorded[at..];
    assert recorded[at..][1..] == recorded[at + 1..] && recorded[at..][0] == recorded[at];
  }

  /** The list is a tail of all that started. */
  lemma TailIs(inputs: seq<nat>, from: nat, at: nat)
    requires from <= |inputs|
    ensures at in inputs[from..] <==> exists k :: from <= k < |inputs| && inputs[k] == at
  {
    if k :| from <= k < |inputs| && inputs[k] == at {
      assert inputs[from..][k - from] == at;
    }
  }

  /** Listed are exactly the executions after which fewer than the maximum started. */
  lemma ListedAreTheLatest(recorded: seq<Message>, at: nat)
    ensures at in Listed(recorded) <==>
            && at < |recorded| && recorded[at].kind.ExecuteInput?
            && Starts(recorded[at + 1..]) < MAX_EXECUTION_HISTORY_ENTRIES
  {
    var inputs := Inputs(recorded);
    var from: nat := if |inputs| > MAX_EXECUTION_HISTORY_ENTRIES then |inputs| - MAX_EXECUTION_HISTORY_ENTRIES else 0;
    assert Listed(recorded) == inputs[from..];
    TailIs(inputs, from, at);
    InputsAreStarts(recorded);
    if at in inputs {
      var k :| 0 <= k < |inputs| && inputs[k] == at;
      StartsAfter(recorded, k);
      if i :| from <= i < |inputs| && inputs[i] == at {
        StartsAfter(recorded, i);
      }
    }
  }

  /** They are listed in their order. */
  lemma ListedInOrder(recorded: seq<Message>)
    ensures forall i, j :: 0 <= i < j < |Listed(recorded)| ==> Listed(recorded)[i] < Listed(recorded)[j]
  {
    InputsAreInputs(recorded);
  }

  // ----- what belongs to an entry -----

  /** Execution `at` was the last to start with its id when message `i` came, and that message is kept. */
  ghost predicate Belongs(recorded: seq<Message>, at: nat, i: nat) {
    && at < i < |recorded| && recorded[i].parent == recorded[at].parent
    && !recorded[i].kind.ExecuteInput? && !recorded[i].kind.InputRequest?
    && forall j :: at < j < i ==> !(recorded[j].kind.ExecuteInput? && recorded[j].parent == recorded[at].parent)
  }

  lemma {:induction false} LastInputIsLast(recorded: seq<Message>, id: MsgId, at: nat)
    ensures LastInput(recorded, id) == Some(at) <==>
            && at < |recorded| && recorded[at].kind.ExecuteInput? && recorded[at].parent == id
            && forall j :: at < j < |recorded| ==> !(recorded[j].kind.ExecuteInput? && recorded[j].parent == id)
  {
    if recorded != [] {
      LastInputIsLast(recorded[..|recorded| - 1], id, at);
    }
  }

  ghost predicate Ascending(places: seq<nat>) {
    forall i, j :: 0 <= i < j < |places| ==> places[i] < places[j]
  }

  /** The places of the messages that belong to the entry, in order. */
  ghost predicate PlacesOf(recorded: seq<Message>, at: nat, places: seq<nat>) {
    Ascending(places) && forall i: nat :: i in places <==> Belongs(recorded, at, i)
  }

  /** The messages at these places. */
  ghost predicate AreAt(messages: seq<Message>, recorded: seq<Message>, places: seq<nat>) {
    && |messages| == |places|
    && forall k :: 0 <= k < |places| ==> places[k] < |recorded| && messages[k] == recorded[places[k]]
  }

  lemma LastBelongs(recorded: seq<Message>, at: nat)
    requires at < |recorded| - 1 && recorded[at].kind.ExecuteInput?
    ensures var n := |recorded| - 1; Follows(recorded[..n], recorded[n], at) <==> Belongs(recorded, at, n)
  {
    LastInputIsLast(recorded[..|recorded| - 1], recorded[|recorded| - 1].parent, at);
  }

  lemma OnePlaceMore(recorded: seq<Message>, at: nat, earlier: seq<nat>, places: seq<nat>)
    requires at < |recorded| - 1 && PlacesOf(recorded[..|recorded| - 1], at, earlier)
    requires places == earlier + if Belongs(recorded, at, |recorded| - 1) then [|recorded| - 1] else []
    ensures PlacesOf(recorded, at, places)
  {
    var n := |recorded| - 1;
    forall k | 0 <= k < |earlier| ensures earlier[k] < n {
      assert earlier[k] in earlier;
    }
    forall i: nat ensures i in places <==> Belongs(recorded, at, i) {
      assert i < n ==> (Belongs(recorded, at, i) <==> Belongs(recorded[..n], at, i));
      assert i in places <==> i in earlier || (i == n && Belongs(recorded, at, n));
    }
  }

  /** What is routed to an entry are exactly the messages that belong to it, in the order they came. */
  lemma {:induction false} RoutedBelongs(recorded: seq<Message>, at: nat) returns (places: seq<nat>)
    requires at < |recorded| && recorded[at].kind.ExecuteInput?
    ensures PlacesOf(recorded, at, places) && AreAt(Routed(recorded, at), recorded, places)
    decreases |recorded|
  {
    var n := |recorded| - 1;
    if at == n {
      places := [];
    } else {
      var earlier := RoutedBelongs(recorded[..n], at);
      LastBelongs(recorded, at);
      places := earlier + if Belongs(recorded, at, n) then [n] else [];
      OnePlaceMore(recorded, at, earlier, places);
      OneMessageMore(recorded, at, earlier, places);
    }
  }

  lemma OneMessageMore(recorded: seq<Message>, at: nat, earlier: seq<nat>, places: seq<nat>)
    requires at < |recorded| - 1 && AreAt(Routed(recorded[..|recorded| - 1], at), recorded[..|recorded| - 1], earlier)
    requires var n := |recorded| - 1;
             places == earlier + if Follows(recorded[..n], recorded[n], at) then [n] else []
    ensures AreAt(Routed(recorded, at), recorded, places)
  {
  }
}
