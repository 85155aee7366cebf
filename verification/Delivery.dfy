/**
  What a subscriber gets over a whole run, compared with what the loop offered
  it: messages of the events processed while it was registered that match its
  filter.
 */
module Delivery {
  import opened Wrappers
  import opened Protocol
  import opened FanOut
  import opened Broker

  /** What the loop offers id in one step. */
  function OfferedAt(w: World, s: Step, id: Uuid): Option<Msg> {
    var e := TurnEvent(w, s);
    if Enabled(w, s) && e.Some? then OfferTo(w.subs, id, e.value) else None
  }

  function AsSeq<T>(o: Option<T>): seq<T> {
    if o.Some? then [o.value] else []
  }

  function Offered(w: World, steps: seq<Step>, id: Uuid): seq<Msg> {
    if steps == [] then []
    else var n := |steps| - 1;
         Offered(w, steps[..n], id) + AsSeq(OfferedAt(Exec(w, steps[..n]), steps[n], id))
  }

  /** Steps of a run at which id was offered a message and its send had outcome o. */
  predicate OutcomeAt(w: World, s: Step, id: Uuid, o: SendOutcome) {
    OfferedAt(w, s, id).Some? && id in w.bufs && Outcome(w.bufs[id]) == o
  }

  function OfferedWithAt(w: World, s: Step, id: Uuid, o: SendOutcome): seq<Msg> {
    if OutcomeAt(w, s, id, o) then AsSeq(OfferedAt(w, s, id)) else []
  }

  function OfferedWith(w: World, steps: seq<Step>, id: Uuid, o: SendOutcome): seq<Msg> {
    if steps == [] then []
    else var n := |steps| - 1;
         OfferedWith(w, steps[..n], id, o) + OfferedWithAt(Exec(w, steps[..n]), steps[n], id, o)
  }

  function ReceivedAt(w: World, s: Step, id: Uuid): seq<Msg> {
    if s == Poll(id) && Enabled(w, s) then [w.bufs[id].queue[0]] else []
  }

  /** What the client of id has read from its stream. */
  function Received(w: World, steps: seq<Step>, id: Uuid): seq<Msg> {
    if steps == [] then []
    else var n := |steps| - 1;
         Received(w, steps[..n], id) + ReceivedAt(Exec(w, steps[..n]), steps[n], id)
  }

  function DiscardedAt(w: World, s: Step, id: Uuid): seq<Msg> {
    if s == CloseReceiver(id) && Enabled(w, s) then w.bufs[id].queue else []
  }

  /** What was still buffered when the client dropped its receiver. */
  function Discarded(w: World, steps: seq<Step>, id: Uuid): seq<Msg> {
    if steps == [] then []
    else var n := |steps| - 1;
         Discarded(w, steps[..n], id) + DiscardedAt(Exec(w, steps[..n]), steps[n], id)
  }

  function Queue(w: World, id: Uuid): seq<Msg> {
    if id in w.bufs then w.bufs[id].queue else []
  }

  ghost predicate Open(w: World, id: Uuid) {
    id in w.bufs ==> !w.bufs[id].closed
  }

  // ----- subsequences

  /** a is b with some positions left out: the positions kept are increasing. */
  ghost predicate Embeds<T(!new)>(a: seq<T>, b: seq<T>, at: seq<int>) {
    && |at| == |a|
    && (forall i :: 0 <= i < |at| ==> 0 <= at[i] < |b| && b[at[i]] == a[i])
    && (forall i, j :: 0 <= i < j < |at| ==> at[i] < at[j])
  }

  ghost predicate Subsequence<T(!new)>(a: seq<T>, b: seq<T>) {
    exists at: seq<int> :: Embeds(a, b, at)
  }

  lemma SubsequenceSkips<T(!new)>(a: seq<T>, b: seq<T>, c: seq<T>)
    requires Subsequence(a, b)
    ensures Subsequence(a, b + c)
  {
    var at: seq<int> :| Embeds(a, b, at);
    assert Embeds(a, b + c, at);
  }

  lemma SubsequenceExtends<T(!new)>(a: seq<T>, b: seq<T>, x: T)
    requires Subsequence(a, b)
    ensures Subsequence(a + [x], b + [x])
  {
    var at: seq<int> :| Embeds(a, b, at);
    assert Embeds(a + [x], b + [x], at + [|b|]);
  }

  // ----- the theorems

  lemma OpenStep(w: World, s: Step, id: Uuid)
    requires id in w.subs ==> id in w.bufs
    requires id in w.streams <==> id in w.bufs
    ensures Open(Next(w, s), id) <==> Open(w, id) && !(Enabled(w, s) && s == CloseReceiver(id))
    ensures Open(w, id) || Queue(w, id) == [] ==> Open(Next(w, s), id) || Queue(Next(w, s), id) == []
  {
    hide Offer;
  }

  /** A buffer moves only by what its own subscriber is offered, reads or drops. */
  lemma QueueStep(w: World, s: Step, id: Uuid)
    requires id in w.subs ==> id in w.bufs
    requires id in w.streams <==> id in w.bufs
    ensures ReceivedAt(w, s, id) + DiscardedAt(w, s, id) + Queue(Next(w, s), id)
         == Queue(w, id) + OfferedWithAt(w, s, id, Sent)
    ensures Queue(w, id) == [] ==> ReceivedAt(w, s, id) == []
    ensures DiscardedAt(w, s, id) != [] ==> Enabled(w, s) && s == CloseReceiver(id)
  {
    if s.TurnAccount? || s.Turn? {
      TurnQueueStep(w, s, id);
    }
  }

  lemma TurnQueueStep(w: World, s: Step, id: Uuid)
    requires id in w.subs ==> id in w.bufs
    requires s.TurnAccount? || s.Turn?
    ensures Queue(Next(w, s), id) == Queue(w, id) + OfferedWithAt(w, s, id, Sent)
  {
    hide Offer;
  }

  lemma SubscribersHaveBuffers(cfg: Config, steps: seq<Step>, id: Uuid)
    ensures var w := Exec(Init(cfg), steps);
      (id in w.subs ==> id in w.bufs) && (id in w.streams <==> id in w.bufs)
  {
    ReachableInv(cfg, steps);
  }

  lemma Regroup<T>(r: seq<T>, r1: seq<T>, d: seq<T>, d1: seq<T>, q: seq<T>, q1: seq<T>, sent: seq<T>)
    requires r1 + d1 + q1 == q + sent && (d == [] || r1 == [])
    ensures (r + r1) + (d + d1) + q1 == (r + d + q) + sent
  {
    calc {
      (r + r1) + (d + d1) + q1;
      (r + d) + (r1 + d1 + q1);
      (r + d) + (q + sent);
      (r + d + q) + sent;
    }
  }

  /** What was put into a subscriber's buffer, wherever it is by now, is exactly
      what it was offered with room in the buffer, in order. */
  lemma {:induction false} PlacedIsSent(cfg: Config, steps: seq<Step>, id: Uuid)
    ensures var w := Init(cfg);
      && Received(w, steps, id) + Discarded(w, steps, id) + Queue(Exec(w, steps), id)
         == OfferedWith(w, steps, id, Sent)
      && (Open(Exec(w, steps), id) ==> Discarded(w, steps, id) == [])
      && (Open(Exec(w, steps), id) || Queue(Exec(w, steps), id) == [])
  {
    hide Next;
    if steps != [] {
      var w := Init(cfg);
      var n := |steps| - 1;
      var v, s := Exec(w, steps[..n]), steps[n];
      PlacedIsSent(cfg, steps[..n], id);
      SubscribersHaveBuffers(cfg, steps[..n], id);
      OpenStep(v, s, id);
      QueueStep(v, s, id);
      Regroup(Received(w, steps[..n], id), ReceivedAt(v, s, id), Discarded(w, steps[..n], id),
              DiscardedAt(v, s, id), Queue(v, id), Queue(Next(v, s), id), OfferedWithAt(v, s, id, Sent));
    }
  }

  lemma OneOutcomeAt(w: World, s: Step, id: Uuid)
    requires id in w.subs ==> id in w.bufs
    ensures forall o :: OfferedWithAt(w, s, id, o) == AsSeq(OfferedAt(w, s, id)) || OfferedWithAt(w, s, id, o) == []
    ensures |AsSeq(OfferedAt(w, s, id))| == |OfferedWithAt(w, s, id, Sent)| + |OfferedWithAt(w, s, id, Full)|
      + |OfferedWithAt(w, s, id, SendOutcome.Closed)|
  {
    hide Offer;
    assert OfferedAt(w, s, id).Some? ==> OutcomeAt(w, s, id, Outcome(w.bufs[id]));
  }

  /** Sent, full and closed sends split what a subscriber is offered; each part
      keeps the order and uses each offer at most once. */
  lemma {:induction false} OutcomesPartitionOffers(cfg: Config, steps: seq<Step>, id: Uuid, o: SendOutcome)
    ensures var w := Init(cfg);
      && Subsequence(OfferedWith(w, steps, id, o), Offered(w, steps, id))
      && |Offered(w, steps, id)| == |OfferedWith(w, steps, id, Sent)|
           + |OfferedWith(w, steps, id, Full)| + |OfferedWith(w, steps, id, SendOutcome.Closed)|
      && (|OfferedWith(w, steps, id, o)| == |Offered(w, steps, id)| ==>
            OfferedWith(w, steps, id, o) == Offered(w, steps, id))
  {
    hide Next, OfferedAt, OfferedWithAt;
    var w := Init(cfg);
    if steps == [] {
      assert Embeds(OfferedWith(w, steps, id, o), Offered(w, steps, id), []);
    } else {
      var n := |steps| - 1;
      var v, s := Exec(w, steps[..n]), steps[n];
      OutcomesPartitionOffers(cfg, steps[..n], id, o);
      SubscribersHaveBuffers(cfg, steps[..n], id);
      OneOutcomeAt(v, s, id);
      PartGrows(OfferedWith(w, steps[..n], id, o), Offered(w, steps[..n], id),
                OfferedWithAt(v, s, id, o), OfferedAt(v, s, id));
    }
  }

  lemma PartGrows(part: seq<Msg>, whole: seq<Msg>, part1: seq<Msg>, offer: Option<Msg>)
    requires Subsequence(part, whole) && (part1 == AsSeq(offer) || part1 == [])
    ensures Subsequence(part + part1, whole + AsSeq(offer))
  {
    if offer.Some? && part1 != [] {
      SubsequenceExtends(part, whole, offer.value);
    } else {
      assert part + part1 == part;
      SubsequenceSkips(part, whole, AsSeq(offer));
    }
  }

  /** The stream of a subscriber over a whole run: an in-order subsequence of
      what it was offered, short exactly by the sends that found the buffer full
      or the receiver gone. */
  lemma StreamRefinesOffers(cfg: Config, steps: seq<Step>, id: Uuid)
    ensures var w := Init(cfg);
      var placed := Received(w, steps, id) + Discarded(w, steps, id) + Queue(Exec(w, steps), id);
      var lost := |OfferedWith(w, steps, id, Full)| + |OfferedWith(w, steps, id, SendOutcome.Closed)|;
      && Subsequence(placed, Offered(w, steps, id))
      && |Offered(w, steps, id)| == |placed| + lost
      && (placed == Offered(w, steps, id) <==> lost == 0)
  {
    PlacedIsSent(cfg, steps, id);
    OutcomesPartitionOffers(cfg, steps, id, Sent);
  }
}
