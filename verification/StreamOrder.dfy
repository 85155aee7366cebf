/**
  Order from the server's loop to the consumer's output: what a consumer accepts
  is, in order, taken from the matching updates the loop handled while the
  subscription was registered.
 */
module StreamOrder {
  import P = Protocol
  import B = Broker
  import D = Delivery
  import E = EndToEnd
  import G = Decoding
  import M = Meaning
  import L = Lifetime
  import T = ClientTypes
  import C = Consumer
  import R = ConsumerRuns

  /** The messages a loop takes from its stream. */
  function ItemsOf(inputs: seq<C.Input>): seq<P.Msg> {
    if inputs == [] then []
    else
      var input := inputs[|inputs| - 1];
      ItemsOf(inputs[..|inputs| - 1]) + (if input.Message? && input.item.Item? then [input.item.msg] else [])
  }

  function DecodedAt(cfg: C.Config, m: P.Msg): seq<T.Update> {
    if C.Decode(cfg, T.Item(m)).Data? then [C.Decode(cfg, T.Item(m)).update] else []
  }

  /** The updates among the messages of a stream, as the client decodes them. */
  function DecodedUpdates(cfg: C.Config, ms: seq<P.Msg>): seq<T.Update> {
    if ms == [] then [] else DecodedUpdates(cfg, ms[..|ms| - 1]) + DecodedAt(cfg, ms[|ms| - 1])
  }

  lemma DecodedSnoc(cfg: C.Config, ms: seq<P.Msg>, m: P.Msg)
    ensures DecodedUpdates(cfg, ms + [m]) == DecodedUpdates(cfg, ms) + DecodedAt(cfg, m)
  {
    assert (ms + [m])[..|ms|] == ms;
  }

  lemma {:induction false} UpdatesAreDecodedItems(cfg: C.Config, inputs: seq<C.Input>)
    ensures R.Updates(cfg, inputs) == DecodedUpdates(cfg, ItemsOf(inputs))
  {
    if inputs != [] {
      var n := |inputs| - 1;
      var input := inputs[n];
      UpdatesAreDecodedItems(cfg, inputs[..n]);
      if input.Message? && input.item.Item? {
        DecodedSnoc(cfg, ItemsOf(inputs[..n]), input.item.msg);
        assert input.item == T.Item(input.item.msg);
      } else {
        assert input.Message? ==> !C.Decode(cfg, input.item).Data?;
        assert ItemsOf(inputs) == ItemsOf(inputs[..n]);
        assert R.Updates(cfg, inputs) == R.Updates(cfg, inputs[..n]);
      }
    }
  }

  // ----- subsequences under decoding

  lemma PrefixOfSubsequence<X(!new)>(p: seq<X>, a: seq<X>, b: seq<X>)
    requires p <= a && D.Subsequence(a, b)
    ensures D.Subsequence(p, b)
  {
    var at: seq<int> :| D.Embeds(a, b, at);
    assert D.Embeds(p, b, at[..|p|]);
  }

  /** The last element of the longer list is either left out or the last of the shorter. */
  lemma SubsequenceOfSnoc<X(!new)>(a: seq<X>, b: seq<X>, x: X)
    requires D.Subsequence(a, b + [x])
    ensures D.Subsequence(a, b) || (a != [] && a[|a| - 1] == x && D.Subsequence(a[..|a| - 1], b))
  {
    var at: seq<int> :| D.Embeds(a, b + [x], at);
    var n := |a| - 1;
    if a != [] && at[n] == |b| {
      assert D.Embeds(a[..n], b, at[..n]);
    } else {
      assert D.Embeds(a, b, at);
    }
  }

  lemma {:induction false} DecodingKeepsOrder(cfg: C.Config, a: seq<P.Msg>, b: seq<P.Msg>)
    requires D.Subsequence(a, b)
    ensures D.Subsequence(DecodedUpdates(cfg, a), DecodedUpdates(cfg, b))
    decreases |b|
  {
    hide C.Decode, D.Subsequence;
    if b == [] {
      if a != [] {
        NonEmptyInNonEmpty(a, b);
      }
      EmptyIsSubsequence<T.Update>();
    } else {
      var n := |b| - 1;
      assert b == b[..n] + [b[n]];
      SubsequenceOfSnoc(a, b[..n], b[n]);
      DecodedSnoc(cfg, b[..n], b[n]);
      if D.Subsequence(a, b[..n]) {
        DecodingKeepsOrder(cfg, a, b[..n]);
        D.SubsequenceSkips(DecodedUpdates(cfg, a), DecodedUpdates(cfg, b[..n]), DecodedAt(cfg, b[n]));
      } else {
        var front := a[..|a| - 1];
        assert a == front + [b[n]];
        DecodingKeepsOrder(cfg, front, b[..n]);
        DecodedSnoc(cfg, front, b[n]);
        BothExtend(DecodedUpdates(cfg, front), DecodedUpdates(cfg, b[..n]), DecodedAt(cfg, b[n]));
      }
    }
  }

  lemma NonEmptyInNonEmpty<X(!new)>(a: seq<X>, b: seq<X>)
    requires D.Subsequence(a, b) && a != []
    ensures b != []
  {
    var at: seq<int> :| D.Embeds(a, b, at);
    assert 0 <= at[0] < |b|;
  }

  lemma EmptyIsSubsequence<X(!new)>()
    ensures D.Subsequence<X>([], [])
  {
    assert D.Embeds<X>([], [], []);
  }

  lemma BothExtend(a: seq<T.Update>, b: seq<T.Update>, c: seq<T.Update>)
    requires D.Subsequence(a, b) && |c| <= 1
    ensures D.Subsequence(a + c, b + c)
  {
    if c == [] {
      assert a + c == a && b + c == b;
    } else {
      assert c == [c[0]];
      D.SubsequenceExtends(a, b, c[0]);
    }
  }

  // ----- end to end

  /** The loop has read some of its stream, in order, in some run of the server. */
  ghost predicate ReadsInOrder(inputs: seq<C.Input>, server: B.Config, steps: seq<B.Step>, id: P.Uuid) {
    ItemsOf(inputs) <= D.Received(B.Init(server), steps, id)
  }

  /** Nothing was lost on the way: no failed send, nothing left unread. */
  ghost predicate Lossless(inputs: seq<C.Input>, server: B.Config, steps: seq<B.Step>, id: P.Uuid) {
    var w := B.Init(server);
    && D.OfferedWith(w, steps, id, P.Full) == [] && D.OfferedWith(w, steps, id, P.SendOutcome.Closed) == []
    && ItemsOf(inputs) == D.Received(w, steps, id)
    && D.Discarded(w, steps, id) == [] && D.Queue(B.Exec(w, steps), id) == []
  }

  lemma LosslessReadsAll(inputs: seq<C.Input>, server: B.Config, steps: seq<B.Step>, id: P.Uuid, wanted: seq<P.Msg>)
    requires Lossless(inputs, server, steps, id)
    requires var w := B.Init(server);
      D.OfferedWith(w, steps, id, P.Full) == [] && D.OfferedWith(w, steps, id, P.SendOutcome.Closed) == [] ==>
      D.Received(w, steps, id) + D.Discarded(w, steps, id) + D.Queue(B.Exec(w, steps), id) == wanted
    ensures ItemsOf(inputs) == wanted
  {
    hide B.Exec, B.Init, D.Received, D.Discarded, D.Queue, D.OfferedWith, ItemsOf;
  }

  /** In every run of server and consumer, the accepted updates are an in-order
      subsequence, each at most once, of the matching updates the loop handled in
      the one stretch in which the subscription was registered; they are handed
      on changed only in the sequence, which counts over them; and if nothing was
      lost and the loop runs, they are all of them. */
  lemma AcceptedInOrder(cfg: C.Config, inputs: seq<C.Input>, server: B.Config, steps: seq<B.Step>, id: P.Uuid,
                        f: P.Filter) returns (i: nat, j: nat)
    requires cfg.cap > 0 && L.Asked(B.Exec(B.Init(server), steps), id, f)
    requires ReadsInOrder(inputs, server, steps, id)
    ensures L.Window(server, steps, id, i, j)
    ensures var st := C.Run(cfg, inputs);
      var wanted := DecodedUpdates(cfg, L.Matching(f, L.Events(B.Exec(B.Init(server), steps[..i]), steps[i..j])));
      && D.Subsequence(st.accepted, wanted)
      && st.forwarded == R.Renumbered(st.accepted, cfg.cap)
      && (st.outcome.Running? && Lossless(inputs, server, steps, id) ==> st.accepted == wanted)
  {
    hide B.Exec, B.Init, C.Run, D.Received, D.Discarded, D.Queue, D.OfferedWith, L.Events, L.Matching, D.Subsequence;
    hide L.Asked, L.Window, ItemsOf, DecodedUpdates, R.Renumbered, R.Updates, Lossless;
    i, j := L.StreamOfALifetime(server, steps, id, f);
    assert i <= j <= |steps| by {
      L.WindowBounds(server, steps, id, i, j);
    }
    var w := B.Init(server);
    var matching := L.Matching(f, L.Events(B.Exec(w, steps[..i]), steps[i..j]));
    var read, items := D.Received(w, steps, id), ItemsOf(inputs);
    var placed := read + D.Discarded(w, steps, id) + D.Queue(B.Exec(w, steps), id);
    PrefixOfSubsequence(items, placed, matching);
    DecodingKeepsOrder(cfg, items, matching);
    UpdatesAreDecodedItems(cfg, inputs);
    R.AcceptedIsPrefix(cfg, inputs);
    PrefixOfSubsequence(C.Run(cfg, inputs).accepted, DecodedUpdates(cfg, items), DecodedUpdates(cfg, matching));
    R.ForwardedIsRenumbered(cfg, inputs);
    if Lossless(inputs, server, steps, id) {
      LosslessReadsAll(inputs, server, steps, id, matching);
    }
  }

  // ----- from the events themselves

  /** The client's update says what the account update says, as far as its kind goes. */
  predicate Tells(u: T.Update, t: P.TimestampedAccountUpdate) {
    && t.accountUpdate.Some?
    && (if u.FullUpdate? then G.SaysFull(u, t.accountUpdate.value)
        else
          var a := t.accountUpdate.value;
          && u.part.pubkey == a.pubkey && u.part.txSignature == a.txSignature && u.part.slot == a.slot
          && u.part.seqNo == a.seqNo && u.part.isStartup == a.isStartup)
  }

  /** The updates tell of account events, one each and in order: at gives the
      event that each tells of. */
  ghost predicate Telling(us: seq<T.Update>, events: seq<P.Event>, at: seq<int>) {
    && |at| == |us|
    && (forall i :: 0 <= i < |at| ==>
          0 <= at[i] < |events| && events[at[i]].AccountEvent? && Tells(us[i], events[at[i]].update))
    && (forall i, j :: 0 <= i < j < |at| ==> at[i] < at[j])
  }

  ghost predicate WellSizedEvents(events: seq<P.Event>) {
    forall i :: 0 <= i < |events| && events[i].AccountEvent? ==> B.WellSized(events[i].update)
  }

  lemma ReportDecodes(cfg: C.Config, f: P.Filter, m: P.Msg, e: P.Event)
    requires E.Reads(cfg.partials, f) && M.Reports(f, m, e) && (e.AccountEvent? ==> B.WellSized(e.update))
    ensures |DecodedAt(cfg, m)| == if e.AccountEvent? then 1 else 0
    ensures e.AccountEvent? ==> Tells(DecodedAt(cfg, m)[0], e.update)
  {
    hide C.Decode;
    if cfg.partials {
      G.PartialItems(cfg, T.Item(m));
    } else {
      G.FullItems(cfg, T.Item(m));
    }
  }

  lemma TellingGrows(us: seq<T.Update>, events: seq<P.Event>, to: seq<int>, u: T.Update, k: int)
    requires Telling(us, events, to) && forall x :: x in to ==> x < k
    requires 0 <= k < |events| && events[k].AccountEvent? && Tells(u, events[k].update)
    ensures Telling(us + [u], events, to + [k])
  {
    hide Tells;
    assert forall i :: 0 <= i < |to| ==> to[i] in to;
  }

  lemma ReportingFront(f: P.Filter, events: seq<P.Event>, ms: seq<P.Msg>, at: seq<int>)
    requires M.Reporting(f, events, ms, at) && ms != []
    ensures |at| == |ms|
    ensures var n := |ms| - 1;
      && M.Reporting(f, events, ms[..n], at[..n])
      && 0 <= at[n] < |events| && M.Reports(f, ms[n], events[at[n]])
      && (forall x :: x in at[..n] ==> x < at[n])
      && (forall x :: x in at <==> x in at[..n] || x == at[n])
  {
    hide M.Reports;
    var n := |ms| - 1;
    assert at == at[..n] + [at[n]];
  }

  /** Decoding messages that report events gives updates that tell of the account
      events among them. */
  lemma {:induction false} DecodedTell(cfg: C.Config, f: P.Filter, events: seq<P.Event>, ms: seq<P.Msg>, at: seq<int>)
    returns (to: seq<int>)
    requires E.Reads(cfg.partials, f) && WellSizedEvents(events) && M.Reporting(f, events, ms, at)
    ensures Telling(DecodedUpdates(cfg, ms), events, to)
    ensures forall k :: k in to ==> k in at
    ensures forall k :: k in at && events[k].AccountEvent? ==> k in to
  {
    hide E.Reads, M.Reports, M.Reporting, Tells, DecodedAt, Telling;
    if ms == [] {
      to := [];
      NothingTells(f, events, ms, at);
    } else {
      var n := |ms| - 1;
      ReportingFront(f, events, ms, at);
      to := DecodedTell(cfg, f, events, ms[..n], at[..n]);
      ReportDecodes(cfg, f, ms[n], events[at[n]]);
      if events[at[n]].AccountEvent? {
        assert DecodedUpdates(cfg, ms) == DecodedUpdates(cfg, ms[..n]) + [DecodedAt(cfg, ms[n])[0]];
        TellingGrows(DecodedUpdates(cfg, ms[..n]), events, to, DecodedAt(cfg, ms[n])[0], at[n]);
        to := to + [at[n]];
      } else {
        assert DecodedUpdates(cfg, ms) == DecodedUpdates(cfg, ms[..n]);
      }
    }
  }

  lemma NothingTells(f: P.Filter, events: seq<P.Event>, ms: seq<P.Msg>, at: seq<int>)
    requires M.Reporting(f, events, ms, at) && ms == []
    ensures at == [] && Telling([], events, [])
  {
  }

  lemma SubsequenceTells(us: seq<T.Update>, vs: seq<T.Update>, events: seq<P.Event>, at: seq<int>)
    returns (to: seq<int>)
    requires D.Subsequence(us, vs) && Telling(vs, events, at)
    ensures Telling(us, events, to) && (us == vs ==> to == at)
  {
    hide Tells;
    var pos: seq<int> :| D.Embeds(us, vs, pos);
    to := if us == vs then at else seq(|us|, i requires 0 <= i < |us| => at[pos[i]]);
  }

  lemma {:induction false} EventsAreWellSized(w: B.World, steps: seq<B.Step>)
    requires B.Inv(w)
    ensures WellSizedEvents(L.Events(w, steps))
  {
    hide B.Next, B.Enabled, B.Inv, B.TurnEvent, B.WellSized;
    if steps != [] {
      var n := |steps| - 1;
      EventsAreWellSized(w, steps[..n]);
      B.RunKeepsInv(w, steps[..n]);
      TurnEventIsWellSized(B.Exec(w, steps[..n]), steps[n]);
    }
  }

  lemma TurnEventIsWellSized(w: B.World, s: B.Step)
    requires B.Inv(w)
    ensures B.TurnEvent(w, s).Some? && B.TurnEvent(w, s).value.AccountEvent? ==>
      B.WellSized(B.TurnEvent(w, s).value.update)
  {
    assert w.accountQ != [] ==> B.BelowMark(w.accountQ[0], w.highest);
  }

  predicate IsAccountMessage(m: P.Msg) {
    m.FullMsg? || (m.PartialMsg? && m.payload.Some? && m.payload.value.Update?)
  }

  function AccountMessages(ms: seq<P.Msg>): nat {
    if ms == [] then 0
    else AccountMessages(ms[..|ms| - 1]) + (if IsAccountMessage(ms[|ms| - 1]) then 1 else 0)
  }

  lemma {:induction false} EveryAccountMessageIsDecoded(cfg: C.Config, f: P.Filter, ms: seq<P.Msg>, highest: nat)
    requires E.Reads(cfg.partials, f) && forall i :: 0 <= i < |ms| ==> B.Fits(f, ms[i], highest)
    ensures |DecodedUpdates(cfg, ms)| == AccountMessages(ms)
  {
    hide E.Reads, B.Fits, C.Decode;
    if ms != [] {
      var n := |ms| - 1;
      EveryAccountMessageIsDecoded(cfg, f, ms[..n], highest);
      AccountMessageIsDecoded(cfg, f, ms[n], highest);
    }
  }

  lemma AccountMessageIsDecoded(cfg: C.Config, f: P.Filter, m: P.Msg, highest: nat)
    requires E.Reads(cfg.partials, f) && B.Fits(f, m, highest)
    ensures C.Decode(cfg, T.Item(m)).Data? <==> IsAccountMessage(m)
  {
    hide C.Decode;
    if cfg.partials {
      G.PartialItems(cfg, T.Item(m));
    } else {
      G.FullItems(cfg, T.Item(m));
    }
  }

  /** In every run of server and consumer, each accepted update says what one
      account update says that the server loop handled while the subscription was
      registered, in the order of handling and each at most once; if nothing was
      lost and the loop runs, there is one for every account update asked for. A
      running loop has accepted as many updates as it has taken account messages. */
  lemma AcceptedTellsOfEvents(cfg: C.Config, inputs: seq<C.Input>, server: B.Config, steps: seq<B.Step>, id: P.Uuid,
                              f: P.Filter) returns (i: nat, j: nat, to: seq<int>)
    requires cfg.cap > 0 && L.Asked(B.Exec(B.Init(server), steps), id, f) && E.Reads(cfg.partials, f)
    requires ReadsInOrder(inputs, server, steps, id)
    ensures L.Window(server, steps, id, i, j)
    ensures var st := C.Run(cfg, inputs);
      var events := L.Events(B.Exec(B.Init(server), steps[..i]), steps[i..j]);
      && Telling(st.accepted, events, to)
      && (st.outcome.Running? && Lossless(inputs, server, steps, id) ==>
            forall k :: 0 <= k < |events| && events[k].AccountEvent? && M.Asks(f, events[k]) ==> k in to)
      && (st.outcome.Running? ==> |st.accepted| == AccountMessages(ItemsOf(inputs)))
  {
    hide B.Exec, B.Init, C.Run, L.Events, L.Matching, D.Subsequence, L.Asked, L.Window, ItemsOf, DecodedUpdates;
    hide E.Reads, M.Asks, Telling, Lossless, WellSizedEvents, R.Renumbered, ReadsInOrder, AccountMessages, R.Updates;
    i, j := AcceptedInOrder(cfg, inputs, server, steps, id, f);
    assert i <= j <= |steps| by {
      L.WindowBounds(server, steps, id, i, j);
    }
    var events := L.Events(B.Exec(B.Init(server), steps[..i]), steps[i..j]);
    B.ReachableInv(server, steps[..i]);
    EventsAreWellSized(B.Exec(B.Init(server), steps[..i]), steps[i..j]);
    var at := L.MatchingAnswers(f, events);
    var all := DecodedTell(cfg, f, events, L.Matching(f, events), at);
    to := SubsequenceTells(C.Run(cfg, inputs).accepted, DecodedUpdates(cfg, L.Matching(f, events)), events, all);
    if C.Run(cfg, inputs).outcome.Running? {
      RunningAcceptsAll(cfg, inputs, server, steps, id, f);
    }
  }

  lemma RunningAcceptsAll(cfg: C.Config, inputs: seq<C.Input>, server: B.Config, steps: seq<B.Step>, id: P.Uuid,
                          f: P.Filter)
    requires cfg.cap > 0 && L.Asked(B.Exec(B.Init(server), steps), id, f) && E.Reads(cfg.partials, f)
    requires ReadsInOrder(inputs, server, steps, id) && C.Run(cfg, inputs).outcome.Running?
    ensures |C.Run(cfg, inputs).accepted| == AccountMessages(ItemsOf(inputs))
  {
    hide B.Exec, B.Init, C.Run, D.Received, B.Fits, R.Updates, ItemsOf, DecodedUpdates;
    var items, w := ItemsOf(inputs), B.Exec(B.Init(server), steps);
    forall k | 0 <= k < |items| ensures B.Fits(f, items[k], w.highest) {
      assert items[k] == D.Received(B.Init(server), steps, id)[k];
      E.ReceivedFits(server, steps, id, items[k]);
    }
    EveryAccountMessageIsDecoded(cfg, f, items, w.highest);
    UpdatesAreDecodedItems(cfg, inputs);
    R.AcceptedIsPrefix(cfg, inputs);
  }
}
