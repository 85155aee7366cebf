/**
  A subscriber's whole life in one statement: it is registered during a single
  stretch of the run, and its stream is a subsequence of the matching events the
  loop handled in that stretch.
 */
module Lifetime {
  import opened Protocol
  import opened Broker
  import opened Delivery
  import opened CloseRace
  import opened Meaning
  import H = HighWater

  /** The events the loop handles in a run. */
  function Events(w: World, steps: seq<Step>): (events: seq<Event>)
    ensures forall i :: 0 <= i < |events| ==> HasPayload(events[i])
  {
    if steps == [] then []
    else var n := |steps| - 1;
         var v := Exec(w, steps[..n]);
         Events(w, steps[..n]) + (if Enabled(v, steps[n]) then AsSeq(TurnEvent(v, steps[n])) else [])
  }

  function Matching(f: Filter, events: seq<Event>): seq<Msg>
    requires forall i :: 0 <= i < |events| ==> HasPayload(events[i])
  {
    if events == [] then []
    else Matching(f, events[..|events| - 1]) + AsSeq(Offer(f, events[|events| - 1]))
  }

  /** The messages a request is offered for a list of events report, in order and
      one each, exactly those it asks for. */
  lemma {:induction false} MatchingAnswers(f: Filter, events: seq<Event>) returns (at: seq<int>)
    requires forall i :: 0 <= i < |events| ==> HasPayload(events[i])
    ensures Answers(f, events, Matching(f, events), at)
  {
    hide Offer, Asks, Reports, Answers;
    if events == [] {
      at := [];
      assert Answers(f, events, [], []) by {
        NothingAnswers(f, events);
      }
    } else {
      var n := |events| - 1;
      var front, e := events[..n], events[n];
      at := MatchingAnswers(f, front);
      OfferMeans(f, e);
      assert events == front + [e];
      if Offer(f, e).Some? {
        AnswersGrow(f, front, Matching(f, front), at, e, Offer(f, e).value);
        assert Matching(f, events) == Matching(f, front) + [Offer(f, e).value];
        at := at + [|front|];
      } else {
        AnswersSkip(f, front, Matching(f, front), at, e);
        assert Matching(f, events) == Matching(f, front);
      }
    }
  }

  lemma NothingAnswers(f: Filter, events: seq<Event>)
    requires events == []
    ensures Answers(f, events, [], [])
  {
  }

  /** The request of id is f, if it has made one. */
  predicate Asked(w: World, id: Uuid, f: Filter) {
    id in w.streams ==> w.streams[id].filter == f
  }

  /** The steps at which id is registered are exactly those from i to j. */
  ghost predicate Window(cfg: Config, steps: seq<Step>, id: Uuid, i: nat, j: nat) {
    && i <= j <= |steps|
    && forall k :: 0 <= k < |steps| ==> (id in Exec(Init(cfg), steps[..k]).subs <==> i <= k < j)
  }

  lemma LeavesForGood(w: World, s: Step, id: Uuid)
    requires Inv(w) && id in w.subs && id !in Next(w, s).subs
    ensures Gone(Next(w, s), id)
  {
    hide MessagesFit, Accepted, AddsKnown, AddsDistinct, ClosesKnown, ClosesDistinct, InOrder, Bounded;
    hide UpdatesBelowMark;
    hide Next, AddPending;
    assert !AddPending(w, id) by {
      RegisteredIsNotPending(w, id);
    }
    NotPendingStep(w, s, id);
  }

  /** Once it has been left, the window does not open again. */
  lemma NotRegisteredAgain(cfg: Config, steps: seq<Step>, id: Uuid, j: nat)
    requires 0 < j <= |steps|
    requires id in Exec(Init(cfg), steps[..j - 1]).subs && id !in Exec(Init(cfg), steps[..j]).subs
    ensures id !in Exec(Init(cfg), steps).subs
  {
    hide Next, Inv, AddPending;
    ReachableInv(cfg, steps[..j - 1]);
    assert steps[..j][..j - 1] == steps[..j - 1];
    LeavesForGood(Exec(Init(cfg), steps[..j - 1]), steps[j - 1], id);
    assert steps == steps[..j] + steps[j..];
    ExecConcat(Init(cfg), steps[..j], steps[j..]);
    GoneForever(Exec(Init(cfg), steps[..j]), steps[j..], id);
  }

  /** Registration is one stretch of every run, possibly empty. */
  lemma {:induction false} OneWindow(cfg: Config, steps: seq<Step>, id: Uuid) returns (i: nat, j: nat)
    ensures Window(cfg, steps, id, i, j)
  {
    hide Exec;
    if steps == [] {
      i, j := 0, 0;
    } else {
      var n := |steps| - 1;
      var prefix := steps[..n];
      i, j := OneWindow(cfg, prefix, id);
      assert forall k :: 0 <= k < n ==> prefix[..k] == steps[..k];
      if id in Exec(Init(cfg), prefix).subs {
        if i == j {
          i := n;
        } else if j < n {
          assert prefix[..j] == steps[..j] && prefix[..j - 1] == steps[..j - 1];
          NotRegisteredAgain(cfg, prefix, id, j);
          assert false;
        }
        j := n + 1;
      }
    }
  }

  lemma AskedBefore(w: World, s: Step, id: Uuid, f: Filter)
    requires Asked(Next(w, s), id, f)
    ensures Asked(w, id, f)
  {
    if id in w.streams {
      H.FilterKeptStep(w, s, id);
    }
  }

  lemma RegisteredAsAsked(w: World, id: Uuid, f: Filter)
    requires Inv(w) && Asked(w, id, f) && id in w.subs
    ensures w.subs[id] == f
  {
  }

  lemma WindowOfPrefix(cfg: Config, steps: seq<Step>, id: Uuid, i: nat, j: nat)
    requires Window(cfg, steps, id, i, j) && steps != []
    ensures var n := |steps| - 1;
      Window(cfg, steps[..n], id, if i <= n then i else n, if j <= n then j else n)
  {
    var n := |steps| - 1;
    assert forall k :: 0 <= k < n ==> steps[..n][..k] == steps[..k];
  }

  lemma MatchingExtends(w: World, steps: seq<Step>, s: Step, f: Filter)
    ensures var v := Exec(w, steps);
      Matching(f, Events(w, steps + [s])) == Matching(f, Events(w, steps))
        + (if Enabled(v, s) && TurnEvent(v, s).Some? then AsSeq(Offer(f, TurnEvent(v, s).value)) else [])
  {
    hide Offer, Exec;
    assert (steps + [s])[..|steps|] == steps;
    var v, before, after := Exec(w, steps), Events(w, steps), Events(w, steps + [s]);
    if Enabled(v, s) && TurnEvent(v, s).Some? {
      assert after == before + [TurnEvent(v, s).value] && after[..|before|] == before;
    } else {
      assert after == before;
    }
  }

  lemma OfferWhileRegistered(w: World, s: Step, id: Uuid, f: Filter)
    requires Inv(w) && Asked(w, id, f) && id in w.subs
    ensures AsSeq(OfferedAt(w, s, id)) ==
      if Enabled(w, s) && TurnEvent(w, s).Some? then AsSeq(Offer(f, TurnEvent(w, s).value)) else []
  {
    hide Inv, Asked;
    RegisteredAsAsked(w, id, f);
  }

  /** The last step of a run at whose end id is still registered. */
  lemma WindowExtends(cfg: Config, steps: seq<Step>, id: Uuid, f: Filter, i: nat)
    requires steps != [] && i < |steps|
    requires var n := |steps| - 1;
      var v := Exec(Init(cfg), steps[..n]);
      && id in v.subs && Asked(v, id, f)
      && Offered(Init(cfg), steps[..n], id) == Matching(f, Events(Exec(Init(cfg), steps[..i]), steps[i..n]))
    ensures Offered(Init(cfg), steps, id) == Matching(f, Events(Exec(Init(cfg), steps[..i]), steps[i..]))
  {
    hide Next, Exec, Matching, Events, Inv, Enabled, Asked, TurnEvent, OfferedAt;
    var n := |steps| - 1;
    ReachableInv(cfg, steps[..n]);
    OfferWhileRegistered(Exec(Init(cfg), steps[..n]), steps[n], id, f);
    assert steps[..n] == steps[..i] + steps[i..n] && steps[i..] == steps[i..n] + [steps[n]];
    ExecConcat(Init(cfg), steps[..i], steps[i..n]);
    MatchingExtends(Exec(Init(cfg), steps[..i]), steps[i..n], steps[n], f);
  }

  lemma OutsideWindow(w: World, steps: seq<Step>, id: Uuid)
    requires steps != [] && id !in Exec(w, steps[..|steps| - 1]).subs
    ensures Offered(w, steps, id) == Offered(w, steps[..|steps| - 1], id)
  {
    hide Exec, Offer;
  }

  lemma AskedInPrefix(w: World, steps: seq<Step>, id: Uuid, f: Filter)
    requires steps != [] && Asked(Exec(w, steps), id, f)
    ensures Asked(Exec(w, steps[..|steps| - 1]), id, f)
  {
    hide Next, Asked;
    AskedBefore(Exec(w, steps[..|steps| - 1]), steps[|steps| - 1], id, f);
  }

  lemma PrefixSlices<T>(xs: seq<T>, n: nat, i: nat, j: nat)
    requires i <= j <= n <= |xs|
    ensures xs[..n][..i] == xs[..i] && xs[..n][i..j] == xs[i..j]
  {
  }

  lemma {:induction false} OffersInWindow(cfg: Config, steps: seq<Step>, id: Uuid, f: Filter, i: nat, j: nat)
    requires Window(cfg, steps, id, i, j) && Asked(Exec(Init(cfg), steps), id, f)
    ensures Offered(Init(cfg), steps, id) == Matching(f, Events(Exec(Init(cfg), steps[..i]), steps[i..j]))
    ensures Answered(f, Events(Exec(Init(cfg), steps[..i]), steps[i..j]), Offered(Init(cfg), steps, id))
  {
    hide Exec, Matching, Events, Asked, OfferedAt, Answers;
    var at := MatchingAnswers(f, Events(Exec(Init(cfg), steps[..i]), steps[i..j]));
    if i == j {
      EmptyWindow(Exec(Init(cfg), steps[..i]), steps[i..j], f);
    }
    if steps != [] {
      var n := |steps| - 1;
      var prefix := steps[..n];
      AskedInPrefix(Init(cfg), steps, id, f);
      WindowOfPrefix(cfg, steps, id, i, j);
      if j <= n {
        OffersInWindow(cfg, prefix, id, f, i, j);
        OutsideWindow(Init(cfg), steps, id);
        PrefixSlices(steps, n, i, j);
      } else if i > n {
        OffersInWindow(cfg, prefix, id, f, n, n);
        OutsideWindow(Init(cfg), steps, id);
        EmptyWindow(Exec(Init(cfg), prefix[..n]), prefix[n..n], f);
      } else {
        OffersInWindow(cfg, prefix, id, f, i, n);
        PrefixSlices(steps, n, i, n);
        assert steps[i..j] == steps[i..];
        WindowExtends(cfg, steps, id, f, i);
      }
    }
  }

  lemma EmptyWindow(w: World, steps: seq<Step>, f: Filter)
    requires steps == []
    ensures Matching(f, Events(w, steps)) == []
  {
  }

  /** The whole life of a subscriber: what was placed in its buffer is an in-order
      subsequence, each at most once, of the messages its request asks for out of
      the events the loop handled in the one stretch in which it was registered,
      and is all of them exactly when no send found the buffer full or the
      receiver gone. */
  lemma StreamOfALifetime(cfg: Config, steps: seq<Step>, id: Uuid, f: Filter) returns (i: nat, j: nat)
    requires Asked(Exec(Init(cfg), steps), id, f)
    ensures Window(cfg, steps, id, i, j)
    ensures var w := Init(cfg);
      var placed := Received(w, steps, id) + Discarded(w, steps, id) + Queue(Exec(w, steps), id);
      var wanted := Matching(f, Events(Exec(w, steps[..i]), steps[i..j]));
      && Answered(f, Events(Exec(w, steps[..i]), steps[i..j]), wanted)
      && Subsequence(placed, wanted)
      && (placed == wanted <==>
            OfferedWith(w, steps, id, Full) == [] && OfferedWith(w, steps, id, SendOutcome.Closed) == [])
  {
    hide Exec, Offered, Received, Discarded, Queue, OfferedWith, Events, Matching, Subsequence, Asked, Window;
    hide Answered;
    i, j := OneWindow(cfg, steps, id);
    assert i <= j <= |steps| by {
      WindowBounds(cfg, steps, id, i, j);
    }
    OffersInWindow(cfg, steps, id, f, i, j);
    StreamRefinesOffers(cfg, steps, id);
  }

  lemma WindowBounds(cfg: Config, steps: seq<Step>, id: Uuid, i: nat, j: nat)
    requires Window(cfg, steps, id, i, j)
    ensures i <= j <= |steps|
  {
  }
}
