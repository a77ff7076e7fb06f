/**
 The relay from end to end: the kernel's reports, the connection that owns the session, its outbox,
 the frames, and the client that splits them again (connect() in lib/session/session-manager.ts).
 */
module RelayPipeline {
  import opened Framing
  import O = OutboxSpec
  import R = Relay

  /** Everything pushed, accepted or not. */
  function Pushed(events: seq<O.Event>): seq<string> {
    if events == [] then []
    else
      var e := events[|events| - 1];
      Pushed(events[..|events| - 1]) + if e.Push? then [e.text] else []
  }

  lemma AcceptedOneMore(s: O.State, e: O.Event)
    ensures O.Step(s, e).accepted == s.accepted + if e.Push? && !s.stopping then [e.text] else []
    ensures s.stopping ==> O.Step(s, e).stopping
  {
  }

  /** Stopping is for good, so what is accepted is all that is pushed before it. */
  lemma {:induction false} AcceptedIsAPrefix(events: seq<O.Event>)
    ensures O.After(events).accepted <= Pushed(events)
    ensures !O.After(events).stopping ==> O.After(events).accepted == Pushed(events)
  {
    if events != [] {
      var init := events[..|events| - 1];
      AcceptedIsAPrefix(init);
      AcceptedOneMore(O.After(init), events[|events| - 1]);
    }
  }

  /** The outbox's items as the texts pushed for them. */
  function Texts(toText: R.Item -> string, items: seq<R.Item>): seq<string> {
    seq(|items|, i requires 0 <= i < |items| => toText(items[i]))
  }

  lemma {:induction false} RelayedPrefix(items: seq<R.Item>, k: nat)
    requires k <= |items|
    ensures R.RelayedOnes(items[..k]) <= R.RelayedOnes(items)
  {
    if k == |items| {
      assert items[..k] == items;
    } else {
      var init := items[..|items| - 1];
      assert init[..k] == items[..k];
      RelayedPrefix(init, k);
    }
  }

  /**
   What a client has received is, text for text, the first `n` items its outbox was given; among
   them are, in order, the first of the reports made while its connection owned the session. Until
   the connection is gone nothing is missing but what still waits in the outbox.
   */
  lemma ClientGetsItsReports(relay: seq<R.Event>, c: R.Conn, outbox: seq<O.Event>,
                             toText: R.Item -> string) returns (n: nat)
    requires R.Legal(relay) && c in R.After(relay).connections
    requires forall item :: IsLine(toText(item))
    requires Pushed(outbox) == Texts(toText, R.After(relay).connections[c].given)
    ensures var given := R.After(relay).connections[c].given;
            && n <= |given|
            && LinesOf(O.After(outbox).sent) == Texts(toText, given[..n])
            && R.RelayedOnes(given[..n]) <= R.ReportedTo(relay, c)
    ensures var s := O.After(outbox);
            !s.stopping && s.queue == s.batch == [] && s.frame == "" ==>
              n == |R.After(relay).connections[c].given|
  {
    var given := R.After(relay).connections[c].given;
    AcceptedAreLines(outbox, toText, given);
    O.AcceptedTextsArrive(outbox);
    n := |LinesOf(O.After(outbox).sent)|;
    assert LinesOf(O.After(outbox).sent) == Texts(toText, given[..n]) by {
      TextsPrefix(toText, given, LinesOf(O.After(outbox).sent));
    }
    RelayedPrefix(given, n);
    R.OutboxGetsItsReports(relay, c);
    NothingWaits(O.After(outbox));
  }

  lemma AcceptedAreLines(outbox: seq<O.Event>, toText: R.Item -> string, given: seq<R.Item>)
    requires (forall item :: IsLine(toText(item))) && Pushed(outbox) == Texts(toText, given)
    ensures O.After(outbox).accepted <= Texts(toText, given)
    ensures !O.After(outbox).stopping ==> O.After(outbox).accepted == Texts(toText, given)
    ensures forall text :: text in O.After(outbox).accepted ==> IsLine(text)
    ensures O.Stops(O.After(outbox))
  {
    AcceptedIsAPrefix(outbox);
    O.RunInv(outbox);
    var accepted := O.After(outbox).accepted;
    forall i | 0 <= i < |accepted| ensures IsLine(accepted[i]) {
      assert accepted[i] == Texts(toText, given)[i] == toText(given[i]);
    }
  }

  lemma TextsPrefix(toText: R.Item -> string, given: seq<R.Item>, received: seq<string>)
    requires received <= Texts(toText, given)
    ensures |received| <= |given| && received == Texts(toText, given[..|received|])
  {
    assert forall i :: 0 <= i < |received| ==> received[i] == Texts(toText, given)[i];
  }

  lemma NothingWaits(s: O.State)
    ensures s.queue == s.batch == [] && s.frame == "" ==>
              LinesOf(s.sent) + Lines(s.frame) + s.batch + s.queue == LinesOf(s.sent)
  {
    if s.queue == s.batch == [] && s.frame == "" {
      assert Lines(s.frame) == [];
      assert LinesOf(s.sent) + [] + [] + [] == LinesOf(s.sent);
    }
  }
}
