/**
 The automaton behind the UTF-8 table, on byte classes alone: which state follows which, and what
 each state waits for.
 */
module Utf8Classes {
  import opened Folds

  type State = s: nat | s <= 8

  /** Where the table leads from each state on each class: 0 accepts, 1 rejects for good. */
  function NextState(state: State, cls: nat): State {
    match state
    case 0 =>
      if cls == 0 then 0 else if cls == 2 then 2 else if cls == 3 then 3 else if cls == 4 then 5
      else if cls == 5 then 8 else if cls == 6 then 7 else if cls == 0xA then 4 else if cls == 0xB then 6 else 1
    case 2 => if cls == 1 || cls == 7 || cls == 9 then 0 else 1
    case 3 => if cls == 1 || cls == 7 || cls == 9 then 2 else 1
    case 4 => if cls == 7 then 2 else 1
    case 5 => if cls == 1 || cls == 9 then 2 else 1
    case 6 => if cls == 7 || cls == 9 then 3 else 1
    case 7 => if cls == 1 || cls == 7 || cls == 9 then 3 else 1
    case 8 => if cls == 1 then 3 else 1
    case _ => 1
  }

  /** How many more bytes a state waits for. */
  function Need(state: nat): nat {
    match state
    case 0 => 0
    case 1 => 0
    case 2 => 1
    case 3 => 2
    case 4 => 2
    case 5 => 2
    case _ => 3
  }

  /** The classes of 80..8F, 90..9F and A0..BF. */
  predicate TailClass(cls: nat) {
    cls == 1 || cls == 9 || cls == 7
  }

  /** The classes of the bytes that lead from a state to the end of a character. */
  predicate Completes(state: nat, rest: seq<nat>) {
    && state != 1 && state <= 8 && |rest| == Need(state)
    && (forall i :: 0 <= i < |rest| ==> TailClass(rest[i]))
    && (state == 4 ==> rest[0] == 7)
    && (state == 5 ==> rest[0] != 7)
    && (state == 6 ==> rest[0] != 1)
    && (state == 8 ==> rest[0] == 1)
  }

  predicate IsCharOf(c: seq<nat>) {
    c != [] && Completes(NextState(0, c[0]), c[1..])
  }

  ghost predicate AreCharsOf(classes: seq<nat>) {
    classes == [] || exists n :: 0 < n <= |classes| && IsCharOf(classes[..n]) && AreCharsOf(classes[n..])
  }

  function Go(state: State, classes: seq<nat>): State
    decreases |classes|
  {
    if classes == [] then state else Go(NextState(state, classes[0]), classes[1..])
  }

  lemma {:induction false} GoAppend(state: State, a: seq<nat>, b: seq<nat>)
    ensures Go(state, a + b) == Go(Go(state, a), b)
    decreases |a|
  {
    if a == [] {
      assert a + b == b;
    } else {
      assert (a + b)[1..] == a[1..] + b;
      GoAppend(NextState(state, a[0]), a[1..], b);
    }
  }

  lemma {:induction false} GoIsFold(state: State, classes: seq<nat>)
    ensures Go(state, classes) == Fold(NextState, state, classes)
  {
    if classes != [] {
      var init, last := classes[..|classes| - 1], classes[|classes| - 1];
      GoIsFold(state, init);
      GoAppend(state, init, [last]);
      assert init + [last] == classes;
      assert Go(Go(state, init), [last]) == NextState(Go(state, init), last);
    }
  }

  // ----- characters by length -----

  lemma CharOf1(x: nat)
    ensures IsCharOf([x]) <==> x == 0
  {
  }

  lemma CharOf2(x: nat, y: nat)
    ensures IsCharOf([x, y]) <==> x == 2 && TailClass(y)
  {
    var rest := [x, y][1..];
    assert rest[0] == y;
  }

  lemma CharOf3(x: nat, y: nat, z: nat)
    ensures IsCharOf([x, y, z]) <==>
      TailClass(z) && ((x == 0xA && y == 7) || (x == 3 && TailClass(y)) || (x == 4 && (y == 1 || y == 9)))
  {
    var rest := [x, y, z][1..];
    assert rest[0] == y && rest[1] == z;
  }

  lemma CharOf4(x: nat, y: nat, z: nat, w: nat)
    ensures IsCharOf([x, y, z, w]) <==>
      TailClass(z) && TailClass(w)
          && ((x == 0xB && (y == 9 || y == 7)) || (x == 6 && TailClass(y)) || (x == 5 && y == 1))
  {
    var rest := [x, y, z, w][1..];
    assert rest[0] == y && rest[1] == z && rest[2] == w;
  }

  lemma CharLength(c: seq<nat>)
    requires IsCharOf(c)
    ensures 1 <= |c| <= 4
  {
  }

  lemma LaterByte(state: nat, rest: seq<nat>)
    requires 1 < state <= 8 && rest != []
    ensures Completes(state, rest) <==> Completes(NextState(state, rest[0]), rest[1..])
  {
  }

  /** From a state inside a character, the classes that complete it lead back to acceptance, none earlier. */
  lemma {:induction false} GoCompletes(state: nat, rest: seq<nat>)
    requires state != 0 && Completes(state, rest)
    ensures Go(state, rest) == 0
    ensures forall k :: 0 <= k < |rest| ==> Go(state, rest[..k]) != 0
    decreases |rest|
  {
    LaterByte(state, rest);
    var state' := NextState(state, rest[0]);
    if state' != 0 {
      GoCompletes(state', rest[1..]);
    }
    forall k | 0 < k < |rest| ensures Go(state, rest[..k]) != 0 {
      assert rest[..k][1..] == rest[1..][..k - 1];
    }
  }

  lemma GoChar(c: seq<nat>)
    requires IsCharOf(c)
    ensures Go(0, c) == 0
    ensures forall k :: 0 < k < |c| ==> Go(0, c[..k]) != 0
  {
    var state' := NextState(0, c[0]);
    if state' != 0 {
      GoCompletes(state', c[1..]);
    }
    forall k | 0 < k < |c| ensures Go(0, c[..k]) != 0 {
      assert c[..k][1..] == c[1..][..k - 1];
    }
  }

  lemma {:induction false} RejectedForGood(rest: seq<nat>)
    ensures Go(1, rest) == 1
  {
    if rest != [] {
      RejectedForGood(rest[1..]);
    }
  }

  /** Whatever is accepted from inside a character completes it first. */
  lemma {:induction false} AcceptedCompletes(state: nat, rest: seq<nat>)
    requires 0 < state <= 8 && Go(state, rest) == 0
    ensures Need(state) <= |rest| && Completes(state, rest[..Need(state)])
    decreases |rest|
  {
    RejectedForGood(rest);
    var state', n := NextState(state, rest[0]), Need(state);
    RejectedForGood(rest[1..]);
    if state' != 0 {
      AcceptedCompletes(state', rest[1..]);
    }
    assert Need(state') == n - 1;
    assert rest[..n][1..] == rest[1..][..n - 1];
    LaterByte(state, rest[..n]);
  }

  lemma AcceptedBegins(classes: seq<nat>) returns (n: nat)
    requires Go(0, classes) == 0 && classes != []
    ensures 0 < n <= |classes| && IsCharOf(classes[..n]) && Go(0, classes[n..]) == 0
  {
    var state' := NextState(0, classes[0]);
    n := 1 + Need(state');
    RejectedForGood(classes[1..]);
    if state' != 0 {
      AcceptedCompletes(state', classes[1..]);
    }
    assert classes[..n][1..] == classes[1..][..n - 1];
    GoChar(classes[..n]);
    assert classes == classes[..n] + classes[n..];
    GoAppend(0, classes[..n], classes[n..]);
  }

  /** Whatever is accepted ends with a character, accepted before it and not within. */
  lemma {:induction false} AcceptedEnds(classes: seq<nat>) returns (m: nat)
    requires Go(0, classes) == 0 && classes != []
    ensures m < |classes| && Go(0, classes[..m]) == 0 && IsCharOf(classes[m..])
    ensures forall k :: m < k < |classes| ==> Go(0, classes[..k]) != 0
    decreases |classes|
  {
    var n := AcceptedBegins(classes);
    var c, rest := classes[..n], classes[n..];
    GoChar(c);
    if rest == [] {
      m := 0;
      assert c == classes == classes[0..];
    } else {
      var m' := AcceptedEnds(rest);
      m := n + m';
      forall k | n <= k <= |classes| ensures Go(0, classes[..k]) == Go(0, rest[..k - n]) {
        GoAppend(0, c, rest[..k - n]);
        assert c + rest[..k - n] == classes[..k];
      }
      assert rest[m'..] == classes[m..];
    }
  }

  /** The automaton accepts exactly the sequences of characters. */
  lemma {:induction false} AcceptsIffChars(classes: seq<nat>)
    ensures Go(0, classes) == 0 <==> AreCharsOf(classes)
    decreases |classes|
  {
    if classes != [] {
      if Go(0, classes) == 0 {
        var n := AcceptedBegins(classes);
        AcceptsIffChars(classes[n..]);
      }
      if AreCharsOf(classes) {
        var n :| 0 < n <= |classes| && IsCharOf(classes[..n]) && AreCharsOf(classes[n..]);
        GoChar(classes[..n]);
        assert classes == classes[..n] + classes[n..];
        GoAppend(0, classes[..n], classes[n..]);
        AcceptsIffChars(classes[n..]);
      }
    }
  }
}
