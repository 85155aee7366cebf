/**
  Added and closed events travel on separate channels and the loop takes them
  in any order. What becomes of a subscription whose receiver is gone.
 */
module CloseRace {
  import opened Wrappers
  import opened Protocol
  import opened Broker
  import opened Delivery

  ghost predicate AddPending(w: World, id: Uuid) {
    exists i :: 0 <= i < |w.addedQ| && w.addedQ[i].id == id
  }

  ghost predicate ClosePending(w: World, id: Uuid) {
    exists i :: 0 <= i < |w.closedQ| && w.closedQ[i].id == id
  }

  /** Known, not registered, and no added event left that could register it. */
  ghost predicate Gone(w: World, id: Uuid) {
    id in w.streams && id !in w.subs && !AddPending(w, id)
  }

  lemma GoneStep(w: World, s: Step, id: Uuid)
    requires Gone(w, id)
    ensures Gone(Next(w, s), id)
  {
  }

  lemma {:induction false} GoneForever(w: World, steps: seq<Step>, id: Uuid)
    requires Gone(w, id)
    ensures Gone(Exec(w, steps), id)
  {
    if steps != [] {
      GoneForever(w, steps[..|steps| - 1], id);
      GoneStep(Exec(w, steps[..|steps| - 1]), steps[|steps| - 1], id);
    }
  }

  lemma RegisteredIsNotPending(w: World, id: Uuid)
    requires Inv(w) && id in w.subs
    ensures !AddPending(w, id)
  {
  }

  /** A send that finds the receiver gone removes the subscription for good;
      a send that does not, never removes it. */
  lemma ClosedSendEvicts(w: World, s: Step, id: Uuid)
    requires Inv(w)
    ensures OutcomeAt(w, s, id, SendOutcome.Closed) ==> Gone(Next(w, s), id)
    ensures OfferedAt(w, s, id).Some? && !OutcomeAt(w, s, id, SendOutcome.Closed) ==> id in Next(w, s).subs
  {
    hide MessagesFit, Accepted, Bounded, UpdatesBelowMark, AddsDistinct, ClosesDistinct, Offer;
    if OutcomeAt(w, s, id, SendOutcome.Closed) {
      RegisteredIsNotPending(w, id);
      assert Next(w, s).addedQ == w.addedQ;
      assert Gone(Next(w, s), id);
    }
  }

  /** A partial subscription with a closed receiver does not survive a heartbeat turn. */
  lemma HeartbeatEvictsClosedPartials(w: World, id: Uuid)
    requires Inv(w) && id in w.subs && w.subs[id].Partials?
    requires id in w.bufs && w.bufs[id].closed
    ensures Gone(Next(w, Turn(Heartbeat)), id)
  {
    hide Inv, Apply;
    ClosedSendEvicts(w, Turn(Heartbeat), id);
  }

  lemma {:induction false} NoOffersOnceGone(w: World, steps: seq<Step>, id: Uuid)
    requires Gone(w, id)
    ensures Offered(w, steps, id) == []
  {
    if steps != [] {
      NoOffersOnceGone(w, steps[..|steps| - 1], id);
      GoneForever(w, steps[..|steps| - 1], id);
    }
  }

  /** Over a whole run at most one send to a subscriber fails on a closed
      channel, and it is the last thing the subscriber is offered. */
  lemma {:induction false} OneClosedSend(cfg: Config, steps: seq<Step>, id: Uuid)
    ensures var w := Init(cfg);
      var failed := OfferedWith(w, steps, id, SendOutcome.Closed);
      && |failed| <= 1
      && (failed != [] ==> Gone(Exec(w, steps), id) && failed == [Last(Offered(w, steps, id))])
  {
    if steps != [] {
      var n := |steps| - 1;
      OneClosedSend(cfg, steps[..n], id);
      ReachableInv(cfg, steps[..n]);
      OneClosedSendStep(Init(cfg), steps[..n], steps[n], id);
      assert steps == steps[..n] + [steps[n]];
    }
  }

  lemma OneClosedSendStep(w: World, steps: seq<Step>, s: Step, id: Uuid)
    requires Inv(Exec(w, steps))
    requires var failed := OfferedWith(w, steps, id, SendOutcome.Closed);
      && |failed| <= 1
      && (failed != [] ==> Gone(Exec(w, steps), id) && failed == [Last(Offered(w, steps, id))])
    ensures var failed := OfferedWith(w, steps + [s], id, SendOutcome.Closed);
      && |failed| <= 1
      && (failed != [] ==> Gone(Exec(w, steps + [s]), id) && failed == [Last(Offered(w, steps + [s], id))])
  {
    hide Inv, Next, Gone, OfferedAt;
    assert (steps + [s])[..|steps|] == steps;
    var v := Exec(w, steps);
    if OfferedWith(w, steps, id, SendOutcome.Closed) != [] {
      GoneStep(v, s, id);
      GoneGetsNothing(v, s, id);
    } else {
      ClosedSendEvicts(v, s, id);
    }
  }

  lemma GoneGetsNothing(w: World, s: Step, id: Uuid)
    requires Gone(w, id)
    ensures OfferedAt(w, s, id).None?
  {
  }

  function Last(ms: seq<Msg>): Msg {
    if ms == [] then BrokenConnection else ms[|ms| - 1]
  }

  // ----- the leak

  /** Closed handled before added: registered, receiver gone, and the one close
      event already used up. */
  ghost predicate Leaked(w: World, id: Uuid) {
    && id in w.subs && id in w.bufs && w.bufs[id].closed
    && id in w.streams && w.streams[id].notified && !ClosePending(w, id)
  }

  lemma LeakedStep(w: World, s: Step, id: Uuid)
    requires Inv(w) && Leaked(w, id)
    ensures if OfferedAt(w, s, id).Some? then Gone(Next(w, s), id) else Leaked(Next(w, s), id)
  {
    hide MessagesFit, Accepted, Bounded, UpdatesBelowMark, AddsKnown, AddsDistinct, ClosesDistinct, Offer;
    if OfferedAt(w, s, id).Some? {
      ClosedSendEvicts(w, s, id);
    }
  }

  /** A leaked entry stays registered exactly until the loop next offers it a
      message, however long the run. */
  lemma {:induction false} LeakLastsUntilOffer(w: World, steps: seq<Step>, id: Uuid)
    requires Inv(w) && Leaked(w, id)
    ensures id in Exec(w, steps).subs <==> Offered(w, steps, id) == []
    ensures if Offered(w, steps, id) == [] then Leaked(Exec(w, steps), id) else Gone(Exec(w, steps), id)
  {
    if steps != [] {
      var n := |steps| - 1;
      LeakLastsUntilOffer(w, steps[..n], id);
      RunKeepsInv(w, steps[..n]);
      if Offered(w, steps[..n], id) == [] {
        LeakedStep(Exec(w, steps[..n]), steps[n], id);
      } else {
        GoneStep(Exec(w, steps[..n]), steps[n], id);
      }
    }
  }

  /** The turn that handles a close event leaves its subscription unregistered;
      it can come back exactly when its added event is still waiting. */
  lemma CloseTurnOutcome(w: World, id: Uuid)
    requires Inv(w) && w.closedQ != [] && w.closedQ[0].id == id
    ensures var v := HandleClosed(w);
      && id !in v.subs && !ClosePending(v, id)
      && id in w.streams && w.streams[id].notified
      && (Gone(v, id) <==> !AddPending(w, id))
  {
    hide MessagesFit, Accepted, InOrder, Bounded, UpdatesBelowMark, AddsDistinct, AddsKnown;
  }

  function RaceOpening(id: Uuid, f: Filter): seq<Step> {
    [Subscribe(id, f), Reply(id), Signal(id)]
  }

  function RaceClosing(id: Uuid): seq<Step> {
    [CloseReceiver(id), Notify(id), TurnClosed, TurnAdded]
  }

  /** The race happens for every request the service accepts. */
  lemma LeakIsReachable(cfg: Config, id: Uuid, f: Filter)
    requires ValidFilter(f)
    ensures Leaked(Exec(Init(cfg), RaceOpening(id, f) + RaceClosing(id)), id)
  {
    ExecConcat(Init(cfg), RaceOpening(id, f), RaceClosing(id));
    RaceOpens(cfg, id, f);
    RaceCloses(Exec(Init(cfg), RaceOpening(id, f)), id, f);
  }

  ghost predicate Racing(w: World, id: Uuid, f: Filter) {
    && w.addedQ == [AddedEvent(id, f)] && w.closedQ == [] && w.subs == map[]
    && id in w.bufs && !w.bufs[id].closed && id in w.streams && w.streams[id] == Stream(f, Some(0), true, false)
  }

  lemma RaceOpens(cfg: Config, id: Uuid, f: Filter)
    requires ValidFilter(f)
    ensures Racing(Exec(Init(cfg), RaceOpening(id, f)), id, f)
  {
    ExecThree(Init(cfg), Subscribe(id, f), Reply(id), Signal(id));
  }

  lemma RaceCloses(w: World, id: Uuid, f: Filter)
    requires Racing(w, id, f)
    ensures Leaked(Exec(w, RaceClosing(id)), id)
  {
    ExecConcat(w, [CloseReceiver(id)], [Notify(id), TurnClosed, TurnAdded]);
    var v := Next(w, CloseReceiver(id));
    assert [CloseReceiver(id)] + [Notify(id), TurnClosed, TurnAdded] == RaceClosing(id);
    assert Exec(w, [CloseReceiver(id)]) == v by {
      assert [CloseReceiver(id)][..0] == [];
    }
    ExecThree(v, Notify(id), TurnClosed, TurnAdded);
    RaceIsLost(v, id, f);
  }

  lemma RaceIsLost(v: World, id: Uuid, f: Filter)
    requires v.addedQ == [AddedEvent(id, f)] && v.closedQ == [] && v.subs == map[]
    requires id in v.bufs && v.bufs[id].closed && id in v.streams && v.streams[id] == Stream(f, Some(0), true, false)
    ensures Leaked(Next(Next(Next(v, Notify(id)), TurnClosed), TurnAdded), id)
  {
    var w5 := Next(v, Notify(id));
    assert w5.closedQ == [ClosedEvent(KindOf(f), id)];
    var w6 := Next(w5, TurnClosed);
    assert w6.closedQ == [] && w6.addedQ == [AddedEvent(id, f)];
  }

  lemma ExecThree(w: World, a: Step, b: Step, c: Step)
    ensures Exec(w, [a, b, c]) == Next(Next(Next(w, a), b), c)
  {
    var r := [a, b, c];
    assert r[..2] == [a, b] && [a, b][..1] == [a] && [a][..0] == [];
    assert Exec(w, [a]) == Next(w, a);
    assert Exec(w, [a, b]) == Next(Exec(w, [a]), b);
  }

  lemma NotPendingStep(w: World, s: Step, id: Uuid)
    requires id in w.streams && !AddPending(w, id)
    ensures id in Next(w, s).streams && !AddPending(Next(w, s), id)
  {
  }
}
