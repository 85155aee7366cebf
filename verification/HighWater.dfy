/**
  The highest-write-slot header against the account channel: what a client may
  conclude from an update above the header it was answered with.
 */
module HighWater {
  import opened Wrappers
  import opened Protocol
  import opened Broker
  import opened Delivery

  type Updates = seq<TimestampedAccountUpdate>

  /** Updates for which a validator thread has raised the mark to their slot;
      ignored notifications are not among them. */
  function Raised(w: World, steps: seq<Step>): Updates {
    if steps == [] then []
    else var n := |steps| - 1;
         Raised(w, steps[..n]) + RaisedAt(Exec(w, steps[..n]), steps[n])
  }

  function RaisedAt(w: World, s: Step): Updates {
    if s.Raise? && !(w.cfg.ignoreStartup && !w.startupDone) && WellSized(s.update) then [s.update] else []
  }

  /** Updates that entered the account channel. */
  function Enqueued(w: World, steps: seq<Step>): Updates {
    if steps == [] then []
    else var n := |steps| - 1;
         Enqueued(w, steps[..n]) + EnqueuedAt(Exec(w, steps[..n]), steps[n])
  }

  function EnqueuedAt(w: World, s: Step): Updates {
    if s.Enqueue? && Enabled(w, s) && |w.accountQ| < w.cfg.accountBuffer then [s.update] else []
  }

  /** Updates that found the account channel full and were lost. */
  function Lost(w: World, steps: seq<Step>): Updates {
    if steps == [] then []
    else var n := |steps| - 1;
         Lost(w, steps[..n]) + LostAt(Exec(w, steps[..n]), steps[n])
  }

  function LostAt(w: World, s: Step): Updates {
    if s.Enqueue? && Enabled(w, s) && |w.accountQ| >= w.cfg.accountBuffer then [s.update] else []
  }

  /** Updates the loop took out of the account channel. */
  function Processed(w: World, steps: seq<Step>): Updates {
    if steps == [] then []
    else var n := |steps| - 1;
         Processed(w, steps[..n]) + ProcessedAt(Exec(w, steps[..n]), steps[n])
  }

  function ProcessedAt(w: World, s: Step): Updates {
    if s.TurnAccount? && Enabled(w, s) then [w.accountQ[0]] else []
  }

  function Slot(t: TimestampedAccountUpdate): nat {
    if t.accountUpdate.Some? then t.accountUpdate.value.slot else 0
  }

  lemma RaiseStep(w: World, s: Step)
    ensures w.highest <= Next(w, s).highest
    ensures forall t :: t in RaisedAt(w, s) ==> WellSized(t) && Slot(t) <= Next(w, s).highest
  {
  }

  lemma {:induction false} MarkNeverDecreases(w: World, steps: seq<Step>)
    ensures w.highest <= Exec(w, steps).highest
  {
    hide Next;
    if steps != [] {
      MarkNeverDecreases(w, steps[..|steps| - 1]);
      RaiseStep(Exec(w, steps[..|steps| - 1]), steps[|steps| - 1]);
    }
  }

  /** The mark has reached the slot of everything raised. */
  lemma {:induction false} RaisedIsBelowMark(w: World, steps: seq<Step>)
    ensures forall t :: t in Raised(w, steps) ==> WellSized(t) && Slot(t) <= Exec(w, steps).highest
  {
    hide WellSized, Next, RaisedAt;
    if steps != [] {
      var n := |steps| - 1;
      var v, s := Exec(w, steps[..n]), steps[n];
      RaisedIsBelowMark(w, steps[..n]);
      RaiseStep(v, s);
    }
  }

  lemma ChannelStep(w: World, s: Step)
    ensures w.accountQ + EnqueuedAt(w, s) == ProcessedAt(w, s) + Next(w, s).accountQ
  {
  }

  /** The account channel is first-in first-out: nothing is lost, duplicated or
      reordered between entering it and reaching the loop. */
  lemma {:induction false} AccountChannelIsFifo(w: World, steps: seq<Step>)
    ensures w.accountQ + Enqueued(w, steps) == Processed(w, steps) + Exec(w, steps).accountQ
  {
    if steps != [] {
      var n := |steps| - 1;
      var v, s := Exec(w, steps[..n]), steps[n];
      AccountChannelIsFifo(w, steps[..n]);
      ChannelStep(v, s);
      Regroup(w.accountQ, Enqueued(w, steps[..n]), EnqueuedAt(v, s),
              Processed(w, steps[..n]), ProcessedAt(v, s), v.accountQ, Next(v, s).accountQ);
    }
  }

  lemma Regroup(q: Updates, e: Updates, e1: Updates, p: Updates, p1: Updates, mid: Updates, rest: Updates)
    requires q + e == p + mid && mid + e1 == p1 + rest
    ensures q + (e + e1) == (p + p1) + rest
  {
    calc {
      q + (e + e1);
      (q + e) + e1;
      p + (mid + e1);
      (p + p1) + rest;
    }
  }

  lemma InFlightStep(w: World, s: Step)
    ensures multiset(EnqueuedAt(w, s)) + multiset(LostAt(w, s)) + Next(w, s).inFlight
         == w.inFlight + multiset(RaisedAt(w, s))
  {
  }

  /** Adds one step of a balance to the balance so far. */
  lemma AddUp<T(!new)>(a: multiset<T>, l: multiset<T>, f: multiset<T>, i: multiset<T>, r: multiset<T>,
                 a1: multiset<T>, l1: multiset<T>, f1: multiset<T>, r1: multiset<T>)
    requires a + l + f == i + r && a1 + l1 + f1 == f + r1
    ensures (a + a1) + (l + l1) + f1 == i + (r + r1)
  {
    forall x ensures ((a + a1) + (l + l1) + f1)[x] == (i + (r + r1))[x] {
      assert (a + l + f)[x] == (i + r)[x] && (a1 + l1 + f1)[x] == (f + r1)[x];
    }
  }

  /** Conservation: as multisets, what entered the channel, what was lost to a
      full one and what is in flight is what was in flight and what was raised. */
  lemma {:induction false} RaisedIsAccountedFor(w: World, steps: seq<Step>)
    ensures multiset(Enqueued(w, steps)) + multiset(Lost(w, steps)) + Exec(w, steps).inFlight
         == w.inFlight + multiset(Raised(w, steps))
  {
    hide Next, EnqueuedAt, LostAt, RaisedAt;
    if steps != [] {
      var n := |steps| - 1;
      var v, s := Exec(w, steps[..n]), steps[n];
      RaisedIsAccountedFor(w, steps[..n]);
      InFlightStep(v, s);
      AddUp(multiset(Enqueued(w, steps[..n])), multiset(Lost(w, steps[..n])), v.inFlight, w.inFlight,
            multiset(Raised(w, steps[..n])), multiset(EnqueuedAt(v, s)), multiset(LostAt(v, s)),
            Next(v, s).inFlight, multiset(RaisedAt(v, s)));
    }
  }

  /** An update above the mark of w that the loop handles later was raised by
      the validator after w. */
  lemma ProcessedAboveMarkIsLater(w: World, steps: seq<Step>, i: nat)
    requires Inv(w) && i < |Processed(w, steps)| && Slot(Processed(w, steps)[i]) > w.highest
    ensures |w.accountQ| <= i < |w.accountQ| + |Enqueued(w, steps)|
    ensures Processed(w, steps)[i] == Enqueued(w, steps)[i - |w.accountQ|]
    ensures Processed(w, steps)[i] in Raised(w, steps)
  {
    AccountChannelIsFifo(w, steps);
    var t := Processed(w, steps)[i];
    assert (w.accountQ + Enqueued(w, steps))[i] == t;
    assert i >= |w.accountQ|;
    RaisedIsAccountedFor(w, steps);
    assert t in multiset(Enqueued(w, steps));
    assert t in w.inFlight + multiset(Raised(w, steps));
    assert t !in w.inFlight;
    assert t in multiset(Raised(w, steps));
  }

  // ----- seen from the subscriber

  /** Slot of the account update a message carries, if it carries one. */
  function SlotOf(m: Msg): Option<nat> {
    if m.FullMsg? && m.update.accountUpdate.Some? then Some(m.update.accountUpdate.value.slot)
    else if m.PartialMsg? && m.payload.Some? && m.payload.value.Update? then Some(m.payload.value.update.slot)
    else None
  }

  ghost predicate Carries(m: Msg, f: Filter, t: TimestampedAccountUpdate) {
    t.accountUpdate.Some? && OfferAccount(f, t) == Some(m)
  }

  lemma ReadStep(w: World, s: Step, id: Uuid, m: Msg)
    ensures m in ReceivedAt(w, s, id) ==> m in Queue(w, id)
    ensures m in Queue(Next(w, s), id) ==> m in Queue(w, id) || OfferedAt(w, s, id) == Some(m)
  {
    hide Offer;
  }

  lemma {:induction false} ReadIsOldOrOffered(w: World, steps: seq<Step>, id: Uuid, m: Msg)
    requires m in Received(w, steps, id) || m in Queue(Exec(w, steps), id)
    ensures m in Queue(w, id) || m in Offered(w, steps, id)
  {
    hide Next, OfferedAt, ReceivedAt;
    if steps != [] {
      var n := |steps| - 1;
      var v, s := Exec(w, steps[..n]), steps[n];
      ReadStep(v, s, id, m);
      if m in Received(w, steps[..n], id) || m in Queue(v, id) {
        ReadIsOldOrOffered(w, steps[..n], id, m);
      }
    }
  }

  lemma {:induction false} OfferedIsProcessed(w: World, steps: seq<Step>, id: Uuid, m: Msg)
    returns (t: TimestampedAccountUpdate)
    requires Inv(w) && id in w.streams && m in Offered(w, steps, id) && SlotOf(m).Some?
    ensures t in Processed(w, steps) && Carries(m, w.streams[id].filter, t)
  {
    hide Apply, MessagesFit, Accepted, AddsKnown, AddsDistinct, ClosesKnown, ClosesDistinct, InOrder, Bounded;
    hide UpdatesBelowMark;
    var n := |steps| - 1;
    var v, s := Exec(w, steps[..n]), steps[n];
    if m in Offered(w, steps[..n], id) {
      t := OfferedIsProcessed(w, steps[..n], id, m);
    } else {
      assert OfferedAt(v, s, id) == Some(m);
      t := TurnEvent(v, s).value.update;
      RunKeepsInv(w, steps[..n]);
      FilterKept(w, steps[..n], id);
    }
  }

  lemma FilterKeptStep(w: World, s: Step, id: Uuid)
    requires id in w.streams
    ensures id in Next(w, s).streams && Next(w, s).streams[id].filter == w.streams[id].filter
  {
  }

  lemma {:induction false} FilterKept(w: World, steps: seq<Step>, id: Uuid)
    requires id in w.streams
    ensures id in Exec(w, steps).streams && Exec(w, steps).streams[id].filter == w.streams[id].filter
  {
    hide Next;
    if steps != [] {
      FilterKept(w, steps[..|steps| - 1], id);
      FilterKeptStep(Exec(w, steps[..|steps| - 1]), steps[|steps| - 1], id);
    }
  }

  /** A message above the header a subscriber was answered with carries an
      update that the validator raised after the answer, so after the added
      event of the subscription was sent. */
  lemma AboveHeaderIsLater(w: World, id: Uuid, steps: seq<Step>, m: Msg) returns (t: TimestampedAccountUpdate)
    requires Inv(w) && Enabled(w, Reply(id))
    requires m in Received(Next(w, Reply(id)), steps, id)
    requires SlotOf(m).Some? && SlotOf(m).value > w.highest
    ensures Next(w, Reply(id)).streams[id].header == Some(w.highest)
    ensures t in Raised(Next(w, Reply(id)), steps) && Carries(m, w.streams[id].filter, t)
  {
    var v := Next(w, Reply(id));
    StepKeepsInv(w, Reply(id));
    t := ReadAboveMarkIsLater(v, id, steps, m);
  }

  lemma FitsSlot(f: Filter, m: Msg, highest: nat)
    requires Fits(f, m, highest) && SlotOf(m).Some?
    ensures SlotOf(m).value <= highest
  {
  }

  lemma QueueFits(w: World, id: Uuid, m: Msg)
    requires Inv(w) && id in w.streams && m in Queue(w, id)
    ensures Fits(w.streams[id].filter, m, w.highest)
  {
    hide Fits;
    assert AllFit(w.streams[id].filter, w.bufs[id].queue, w.highest);
  }

  lemma ReadAboveMarkIsLater(v: World, id: Uuid, steps: seq<Step>, m: Msg) returns (t: TimestampedAccountUpdate)
    requires Inv(v) && id in v.streams && m in Received(v, steps, id)
    requires SlotOf(m).Some? && SlotOf(m).value > v.highest
    ensures t in Raised(v, steps) && Carries(m, v.streams[id].filter, t)
  {
    hide Inv, Fits, Queue, Processed, Raised, Received;
    ReadIsOldOrOffered(v, steps, id, m);
    if m in Queue(v, id) {
      QueueFits(v, id, m);
      FitsSlot(v.streams[id].filter, m, v.highest);
      assert false;
    }
    t := OfferedIsProcessed(v, steps, id, m);
    var i :| 0 <= i < |Processed(v, steps)| && Processed(v, steps)[i] == t;
    ProcessedAboveMarkIsLater(v, steps, i);
  }
}
