/**
  Subscribers do not influence one another. Erasing one subscriber from the
  world, and purging its moves from the run, commutes with running: whatever it
  does (subscribe, fill its buffer, go away, be dropped), everybody else sees
  the run in which it never existed.
 */
module NonInterference {
  import opened Wrappers
  import opened Protocol
  import opened FanOut
  import opened Broker
  import opened Delivery

  function AddsWithout(q: seq<AddedEvent>, o: Uuid): seq<AddedEvent> {
    if q == [] then []
    else (if q[0].id == o then [] else [q[0]]) + AddsWithout(q[1..], o)
  }

  function ClosesWithout(q: seq<ClosedEvent>, o: Uuid): seq<ClosedEvent> {
    if q == [] then []
    else (if q[0].id == o then [] else [q[0]]) + ClosesWithout(q[1..], o)
  }

  /** The world without subscriber o. */
  function Erase(w: World, o: Uuid): World {
    w.(addedQ := AddsWithout(w.addedQ, o), closedQ := ClosesWithout(w.closedQ, o),
       subs := w.subs - {o}, bufs := w.bufs - {o}, streams := w.streams - {o})
  }

  /** Steps that are moves of subscriber o, or turns spent on its events. */
  predicate About(w: World, s: Step, o: Uuid) {
    match s
    case Subscribe(id, _) => id == o
    case Reply(id) => id == o
    case Poll(id) => id == o
    case Signal(id) => id == o
    case CloseReceiver(id) => id == o
    case Notify(id) => id == o
    case TurnAdded => w.addedQ != [] && w.addedQ[0].id == o
    case TurnClosed => w.closedQ != [] && w.closedQ[0].id == o
    case _ => false
  }

  function Purge(w: World, steps: seq<Step>, o: Uuid): seq<Step> {
    if steps == [] then []
    else var n := |steps| - 1;
         Purge(w, steps[..n], o) + (if About(Exec(w, steps[..n]), steps[n], o) then [] else [steps[n]])
  }

  lemma {:induction false} AddsWithoutAppend(q: seq<AddedEvent>, a: AddedEvent, o: Uuid)
    ensures AddsWithout(q + [a], o) == AddsWithout(q, o) + (if a.id == o then [] else [a])
  {
    if q == [] {
      assert (q + [a])[1..] == [];
    } else {
      assert (q + [a])[1..] == q[1..] + [a];
      AddsWithoutAppend(q[1..], a, o);
    }
  }

  lemma {:induction false} ClosesWithoutAppend(q: seq<ClosedEvent>, c: ClosedEvent, o: Uuid)
    ensures ClosesWithout(q + [c], o) == ClosesWithout(q, o) + (if c.id == o then [] else [c])
  {
    if q == [] {
      assert (q + [c])[1..] == [];
    } else {
      assert (q + [c])[1..] == q[1..] + [c];
      ClosesWithoutAppend(q[1..], c, o);
    }
  }

  lemma FailedErase(subs: Subs, bufs: Bufs, e: Event, o: Uuid)
    requires HasPayload(e)
    ensures Failed(subs - {o}, bufs - {o}, e) == Failed(subs, bufs, e) - {o}
  {
    hide Offer;
  }

  lemma SendAllErase(subs: Subs, bufs: Bufs, e: Event, o: Uuid)
    requires HasPayload(e)
    ensures SendAll(subs - {o}, bufs - {o}, e) == SendAll(subs, bufs, e) - {o}
  {
    hide Offer, Deliver;
  }

  lemma FanOutErase(w: World, e: Event, o: Uuid)
    requires HasPayload(e)
    ensures FanOutEvent(Erase(w, o), e) == Erase(FanOutEvent(w, e), o)
  {
    hide Failed, SendAll, AddsWithout, ClosesWithout;
    FailedErase(w.subs, w.bufs, e, o);
    SendAllErase(w.subs, w.bufs, e, o);
    var failed := Failed(w.subs, w.bufs, e);
    assert (w.subs - {o}) - (failed - {o}) == (w.subs - failed) - {o};
  }

  /** A move of o changes nothing that is left after erasing it. */
  lemma AboutIsInvisible(w: World, s: Step, o: Uuid)
    requires About(w, s, o)
    ensures Erase(Next(w, s), o) == Erase(w, o)
  {
    if Enabled(w, s) {
      match s
      case Subscribe(id, f) =>
        AddsWithoutAppend(w.addedQ, AddedEvent(id, f), o);
        UpdateIsInvisible(w.bufs, o, Buf([], w.cfg.subscriberBuffer, false));
        UpdateIsInvisible(w.streams, o, Stream(f, None, false, false));
      case Notify(id) =>
        ClosesWithoutAppend(w.closedQ, ClosedEvent(KindOf(w.streams[id].filter), id), o);
        UpdateIsInvisible(w.streams, o, w.streams[id].(notified := true));
      case Reply(id) => UpdateIsInvisible(w.streams, o, w.streams[id].(header := Some(w.highest)));
      case Signal(id) => UpdateIsInvisible(w.streams, o, w.streams[id].(signalled := true));
      case Poll(id) => UpdateIsInvisible(w.bufs, o, w.bufs[id].(queue := w.bufs[id].queue[1..]));
      case CloseReceiver(id) => UpdateIsInvisible(w.bufs, o, w.bufs[id].(queue := [], closed := true));
      case TurnAdded => UpdateIsInvisible(w.subs, o, w.addedQ[0].filter);
      case TurnClosed =>
    }
  }

  lemma UpdateIsInvisible<V>(m: map<Uuid, V>, o: Uuid, v: V)
    ensures m[o := v] - {o} == m - {o}
  {
  }

  lemma SameEnabled(w: World, s: Step, o: Uuid)
    requires !About(w, s, o)
    ensures Enabled(Erase(w, o), s) <==> Enabled(w, s)
  {
  }

  lemma EraseUpdate<V>(m: map<Uuid, V>, id: Uuid, v: V, o: Uuid)
    requires id != o
    ensures (m - {o})[id := v] == m[id := v] - {o}
  {
  }

  /** Moves of another subscriber that only it and its stream see. */
  lemma StreamMovesCommute(w: World, s: Step, o: Uuid)
    requires !About(w, s, o) && Enabled(w, s) && Enabled(Erase(w, o), s)
    requires s.Reply? || s.Signal? || s.Poll? || s.CloseReceiver?
    ensures Apply(Erase(w, o), s) == Erase(Apply(w, s), o)
  {
    hide AddsWithout, ClosesWithout;
    match s
    case Reply(id) => EraseUpdate(w.streams, id, w.streams[id].(header := Some(w.highest)), o);
    case Signal(id) => EraseUpdate(w.streams, id, w.streams[id].(signalled := true), o);
    case Poll(id) => EraseUpdate(w.bufs, id, w.bufs[id].(queue := w.bufs[id].queue[1..]), o);
    case CloseReceiver(id) => EraseUpdate(w.bufs, id, w.bufs[id].(queue := [], closed := true), o);
    case _ =>
  }

  lemma SubscribeCommutes(w: World, id: Uuid, f: Filter, o: Uuid)
    requires id != o && Enabled(w, Subscribe(id, f)) && Enabled(Erase(w, o), Subscribe(id, f))
    ensures Apply(Erase(w, o), Subscribe(id, f)) == Erase(Apply(w, Subscribe(id, f)), o)
  {
    hide AddsWithout, ClosesWithout;
    AddsWithoutAppend(w.addedQ, AddedEvent(id, f), o);
    EraseUpdate(w.bufs, id, Buf([], w.cfg.subscriberBuffer, false), o);
    EraseUpdate(w.streams, id, Stream(f, None, false, false), o);
  }

  lemma NotifyCommutes(w: World, id: Uuid, o: Uuid)
    requires id != o && Enabled(w, Notify(id)) && Enabled(Erase(w, o), Notify(id))
    ensures Apply(Erase(w, o), Notify(id)) == Erase(Apply(w, Notify(id)), o)
  {
    hide AddsWithout, ClosesWithout;
    ClosesWithoutAppend(w.closedQ, ClosedEvent(KindOf(w.streams[id].filter), id), o);
    EraseUpdate(w.streams, id, w.streams[id].(notified := true), o);
  }

  /** Moves of the validator and of the other subscribers. */
  lemma ClientsCommute(w: World, s: Step, o: Uuid)
    requires !About(w, s, o) && Enabled(w, s) && Enabled(Erase(w, o), s)
    requires !s.TurnAdded? && !s.TurnClosed? && !s.TurnAccount? && !s.Turn?
    ensures Apply(Erase(w, o), s) == Erase(Apply(w, s), o)
  {
    hide AddsWithout, ClosesWithout;
    match s
    case Subscribe(id, f) => SubscribeCommutes(w, id, f, o);
    case Notify(id) => NotifyCommutes(w, id, o);
    case Reply(_) => StreamMovesCommute(w, s, o);
    case Signal(_) => StreamMovesCommute(w, s, o);
    case Poll(_) => StreamMovesCommute(w, s, o);
    case CloseReceiver(_) => StreamMovesCommute(w, s, o);
    case _ =>
  }

  lemma AddedTurnCommutes(w: World, o: Uuid)
    requires !About(w, TurnAdded, o) && Enabled(w, TurnAdded) && Enabled(Erase(w, o), TurnAdded)
    ensures Apply(Erase(w, o), TurnAdded) == Erase(Apply(w, TurnAdded), o)
  {
    EraseUpdate(w.subs, w.addedQ[0].id, w.addedQ[0].filter, o);
  }

  lemma ClosedTurnCommutes(w: World, o: Uuid)
    requires !About(w, TurnClosed, o) && Enabled(w, TurnClosed) && Enabled(Erase(w, o), TurnClosed)
    ensures Apply(Erase(w, o), TurnClosed) == Erase(Apply(w, TurnClosed), o)
  {
    var c := w.closedQ[0];
    assert CloseSub(w.subs - {o}, c) == CloseSub(w.subs, c) - {o};
  }

  lemma TurnsCommute(w: World, s: Step, o: Uuid)
    requires !About(w, s, o) && Enabled(w, s) && Enabled(Erase(w, o), s)
    requires s.TurnAdded? || s.TurnClosed? || s.TurnAccount? || s.Turn?
    ensures Apply(Erase(w, o), s) == Erase(Apply(w, s), o)
  {
    hide FanOutEvent, AddsWithout, ClosesWithout;
    match s
    case TurnAdded => AddedTurnCommutes(w, o);
    case TurnClosed => ClosedTurnCommutes(w, o);
    case TurnAccount => FanOutErase(w.(accountQ := w.accountQ[1..]), AccountEvent(w.accountQ[0]), o);
    case Turn(e) => FanOutErase(w, e, o);
  }

  /** Any other step acts the same with o erased. */
  lemma OthersCommute(w: World, s: Step, o: Uuid)
    requires !About(w, s, o)
    ensures Enabled(Erase(w, o), s) <==> Enabled(w, s)
    ensures Next(Erase(w, o), s) == Erase(Next(w, s), o)
  {
    SameEnabled(w, s, o);
    if Enabled(w, s) {
      if s.TurnAdded? || s.TurnClosed? || s.TurnAccount? || s.Turn? {
        TurnsCommute(w, s, o);
      } else {
        ClientsCommute(w, s, o);
      }
    }
  }

  lemma {:induction false} ErasureCommutes(w: World, steps: seq<Step>, o: Uuid)
    ensures Exec(Erase(w, o), Purge(w, steps, o)) == Erase(Exec(w, steps), o)
  {
    hide Next, Erase;
    if steps != [] {
      var n := |steps| - 1;
      var v, s := Exec(w, steps[..n]), steps[n];
      var purged := Purge(w, steps[..n], o);
      ErasureCommutes(w, steps[..n], o);
      if About(v, s, o) {
        AboutIsInvisible(v, s, o);
        assert Purge(w, steps, o) == purged;
      } else {
        OthersCommute(v, s, o);
        assert (purged + [s])[..|purged|] == purged;
      }
    }
  }

  /** Every other subscriber is offered and reads the same messages, and ends
      with the same buffer and registration, as if o had never subscribed. */
  lemma OthersUnaffected(cfg: Config, steps: seq<Step>, o: Uuid, x: Uuid)
    requires x != o
    ensures var w := Init(cfg); var purged := Purge(w, steps, o);
      && Received(w, steps, x) == Received(w, purged, x)
      && Offered(w, steps, x) == Offered(w, purged, x)
      && Queue(Exec(w, steps), x) == Queue(Exec(w, purged), x)
      && (x in Exec(w, steps).subs <==> x in Exec(w, purged).subs)
  {
    NothingToErase(cfg, o);
    ErasureCommutes(Init(cfg), steps, o);
    SameTraffic(cfg, steps, o, x);
  }

  lemma NothingToErase(cfg: Config, o: Uuid)
    ensures Erase(Init(cfg), o) == Init(cfg)
  {
  }

  lemma {:induction false} SameTraffic(cfg: Config, steps: seq<Step>, o: Uuid, x: Uuid)
    requires x != o
    ensures var w := Init(cfg); var purged := Purge(w, steps, o);
      Received(w, steps, x) == Received(w, purged, x) && Offered(w, steps, x) == Offered(w, purged, x)
  {
    hide Next, Exec, Init, Erase, About, OfferedAt, ReceivedAt;
    if steps != [] {
      var w, n := Init(cfg), |steps| - 1;
      SameTraffic(cfg, steps[..n], o, x);
      NothingToErase(cfg, o);
      ErasureCommutes(w, steps[..n], o);
      assert steps == steps[..n] + [steps[n]];
      SameStep(w, steps[..n], steps[n], Purge(w, steps[..n], o), o, x);
      assert Purge(w, steps, o) ==
        if About(Exec(w, steps[..n]), steps[n], o) then Purge(w, steps[..n], o)
        else Purge(w, steps[..n], o) + [steps[n]];
    }
  }

  lemma SameObservations(w: World, s: Step, o: Uuid, x: Uuid)
    requires x != o
    ensures About(w, s, o) ==> ReceivedAt(w, s, x) == [] && OfferedAt(w, s, x).None?
    ensures !About(w, s, o) ==>
      && ReceivedAt(Erase(w, o), s, x) == ReceivedAt(w, s, x)
      && OfferedAt(Erase(w, o), s, x) == OfferedAt(w, s, x)
  {
    hide Offer, AddsWithout, ClosesWithout;
    if !About(w, s, o) {
      SameEnabled(w, s, o);
    }
  }

  lemma SameStep(w: World, steps: seq<Step>, s: Step, purged: seq<Step>, o: Uuid, x: Uuid)
    requires x != o && Exec(w, purged) == Erase(Exec(w, steps), o)
    requires Received(w, steps, x) == Received(w, purged, x) && Offered(w, steps, x) == Offered(w, purged, x)
    ensures var p := if About(Exec(w, steps), s, o) then purged else purged + [s];
      && Received(w, steps + [s], x) == Received(w, p, x)
      && Offered(w, steps + [s], x) == Offered(w, p, x)
  {
    hide Next, Erase, About, OfferedAt, ReceivedAt;
    assert (steps + [s])[..|steps|] == steps && (purged + [s])[..|purged|] == purged;
    SameObservations(Exec(w, steps), s, o, x);
  }
}
