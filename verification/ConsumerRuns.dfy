/**
  What a consumer run guarantees: which updates are handed on, with which
  numbers, and when the heartbeat watchdog speaks up.
 */
module ConsumerRuns {
  import opened Wrappers
  import opened WriteSeqs
  import opened ClientTypes
  import opened Consumer
  import Protocol
  import Decoding

  function Notices(us: seq<Update>): (ns: seq<Notice>)
    ensures |ns| == |us| && forall i :: 0 <= i < |us| ==> ns[i] == us[i].Notice()
  {
    if us == [] then [] else Notices(us[..|us| - 1]) + [us[|us| - 1].Notice()]
  }

  /** Every update with its sequence replaced by the number its predecessors give it. */
  function Renumbered(us: seq<Update>, cap: nat): seq<Update> {
    if us == [] then []
    else var n := |us| - 1;
         Renumbered(us[..n], cap) + [us[n].SetSeq(Number(Notices(us[..n]), us[n].Notice(), cap))]
  }

  /** The updates a run of inputs carries, decoded. */
  function Updates(cfg: Config, inputs: seq<Input>): seq<Update> {
    if inputs == [] then []
    else
      var input := inputs[|inputs| - 1];
      Updates(cfg, inputs[..|inputs| - 1])
      + (if input.Message? && Decode(cfg, input.item).Data? then [Decode(cfg, input.item).update] else [])
  }

  ghost predicate Good(cfg: Config, st: LoopState)
    requires cfg.cap > 0
  {
    && AllInOrder(Notices(st.accepted), cfg.cap)
    && st.forwarded == Renumbered(st.accepted, cfg.cap)
    && (st.outcome.Running? ==> Faithful(st.cache, Notices(st.accepted), cfg.cap))
  }

  lemma NoticesSnoc(us: seq<Update>, u: Update)
    ensures Notices(us + [u]) == Notices(us) + [u.Notice()]
  {
    assert (us + [u])[..|us|] == us;
  }

  lemma InOrderSnoc(ns: seq<Notice>, n: Notice, cap: nat)
    requires AllInOrder(ns, cap) && InOrder(ns, n, cap)
    ensures AllInOrder(ns + [n], cap)
  {
    assert forall k :: 0 <= k < |ns| ==> (ns + [n])[..k] == ns[..k];
    assert (ns + [n])[..|ns|] == ns;
  }

  lemma AcceptIsGood(cfg: Config, st: LoopState, u: Update)
    requires cfg.cap > 0 && Good(cfg, st) && st.outcome.Running?
    requires Account(st.cache, u.Notice(), cfg.cap).1.Some?
    ensures var (d, n) := Account(st.cache, u.Notice(), cfg.cap);
      var accepted := st.accepted + [u];
      && AllInOrder(Notices(accepted), cfg.cap)
      && st.forwarded + [u.SetSeq(n.value)] == Renumbered(accepted, cfg.cap)
      && Faithful(d, Notices(accepted), cfg.cap)
  {
    hide Account, Number, Faithful, InOrder, AllInOrder;
    var ns := Notices(st.accepted);
    AccountDecides(st.cache, ns, u.Notice(), cfg.cap);
    AcceptKeepsFaithful(st.cache, ns, u.Notice(), cfg.cap);
    NoticesSnoc(st.accepted, u);
    InOrderSnoc(ns, u.Notice(), cfg.cap);
    assert (st.accepted + [u])[..|st.accepted|] == st.accepted;
  }

  lemma TurnIsGood(cfg: Config, st: LoopState, input: Input)
    requires cfg.cap > 0 && Good(cfg, st)
    ensures Good(cfg, Turn(cfg, st, input))
  {
    hide Account, Faithful, AllInOrder, Renumbered, Notices, Decode, Fresh, HeartbeatExpired, EntryOf, CountersAt;
    if st.outcome.Running? && input.Message? && Decode(cfg, input.item).Data? {
      var u := Decode(cfg, input.item).update;
      if Account(st.cache, u.Notice(), cfg.cap).1.Some? {
        AcceptIsGood(cfg, st, u);
      }
    }
  }

  /** Over any run: what is handed on is what was accepted, changed only in its
      sequence, and the new sequences are told from the accepted updates alone. */
  lemma {:induction false} ForwardedIsRenumbered(cfg: Config, inputs: seq<Input>)
    requires cfg.cap > 0
    ensures Good(cfg, Run(cfg, inputs))
  {
    if inputs == [] {
      assert Recency([]) == [];
    } else {
      ForwardedIsRenumbered(cfg, inputs[..|inputs| - 1]);
      TurnIsGood(cfg, Run(cfg, inputs[..|inputs| - 1]), inputs[|inputs| - 1]);
    }
  }

  /** The accepted updates are a prefix of those received, all of them while
      the loop runs. */
  lemma {:induction false} AcceptedIsPrefix(cfg: Config, inputs: seq<Input>)
    requires cfg.cap > 0
    ensures var st := Run(cfg, inputs);
      && st.accepted <= Updates(cfg, inputs)
      && (st.outcome.Running? ==> st.accepted == Updates(cfg, inputs))
  {
    hide Process;
    if inputs != [] {
      AcceptedIsPrefix(cfg, inputs[..|inputs| - 1]);
    }
  }

  /** While running, an update is handed on exactly when it passes both gates as
      read at its check and its raw sequence is not below the one for its pair. */
  lemma UpdateDecision(cfg: Config, inputs: seq<Input>, input: Input, u: Update)
    requires cfg.cap > 0 && Run(cfg, inputs).outcome.Running?
    requires input.Message? && !input.receiverGone && Decode(cfg, input.item) == Data(u)
    ensures var st := Run(cfg, inputs); var ns := Notices(st.accepted);
      var v := Run(cfg, inputs + [input]);
      && (v.outcome.Running? <==> Fresh(u.Notice(), cfg.gates, input.rooted) && InOrder(ns, u.Notice(), cfg.cap))
      && (v.outcome.Running? ==> v.forwarded == st.forwarded + [u.SetSeq(Number(ns, u.Notice(), cfg.cap))])
      && (!v.outcome.Running? ==> v.forwarded == st.forwarded && v.cache.table == st.cache.table)
      && (!v.outcome.Running? ==> v.outcome == Failed(
            if !Fresh(u.Notice(), cfg.gates, input.rooted) then StaleAccountUpdate(u.Notice().slot, input.reported)
            else OutOfOrderSeqAccountUpdate(u.Notice().slot, input.reported, u.Notice().seqNo,
                                            Bound(ns, u.Notice().slot, u.Notice().pubkey, cfg.cap))))
  {
    hide Account, Number, InOrder, Fresh, Bound;
    assert (inputs + [input])[..|inputs|] == inputs;
    var st := Run(cfg, inputs);
    ForwardedIsRenumbered(cfg, inputs);
    AccountDecides(st.cache, Notices(st.accepted), u.Notice(), cfg.cap);
    TakeLength(Recency(Slots(Notices(st.accepted))), cfg.cap);
    if Account(st.cache, u.Notice(), cfg.cap).1.None? {
      RejectChangesNothing(st.cache, u.Notice(), cfg.cap);
      RejectedAgainst(st.cache, Notices(st.accepted), u.Notice(), cfg.cap);
    }
  }

  /** The gates, without the subtraction: no slot below the header, and none more
      than the distance below the rooted slot. */
  lemma FreshIff(u: Notice, g: Gates, rooted: nat)
    ensures Fresh(u, g, rooted) <==> u.slot >= g.oldestWriteSlot && u.slot + g.maxRootedSlotDistance >= rooted
  {
  }

  /** How an input without an update ends or continues a running loop: the exit
      flag, the end of the stream, and any item that is a failure by itself. */
  lemma TurnOutcomes(cfg: Config, inputs: seq<Input>, input: Input)
    requires cfg.cap > 0 && Run(cfg, inputs).outcome.Running?
    requires input.Message? ==> !Decode(cfg, input.item).Data?
    ensures var st := Run(cfg, inputs); var v := Run(cfg, inputs + [input]);
      && v.forwarded == st.forwarded && v.accepted == st.accepted && v.cache == st.cache
      && (input.Exit? ==> v.outcome == Stopped)
      && (input.Message? && Decode(cfg, input.item).Fail? ==> v.outcome == Failed(Decode(cfg, input.item).error))
      && (input.Message? && Decode(cfg, input.item).Beat? ==> v.outcome.Running? && v.lastHeartbeat == input.at)
  {
    hide Process, Decode;
    assert (inputs + [input])[..|inputs|] == inputs;
  }

  /** With its receiver gone the loop hands nothing on, and says so if the update
      passes the checks. */
  lemma ReceiverGone(cfg: Config, inputs: seq<Input>, input: Input)
    requires cfg.cap > 0 && Run(cfg, inputs).outcome.Running?
    requires input.Message? && input.receiverGone && Decode(cfg, input.item).Data?
    ensures var st := Run(cfg, inputs); var v := Run(cfg, inputs + [input]);
      && v.forwarded == st.forwarded && v.accepted == st.accepted && !v.outcome.Running?
      && (PassesChecks(cfg, st, input) <==> v.outcome == Failed(ConsumerChannelDisconnected))
  {
    hide Account, Number, InOrder, Fresh, Decode, EntryOf, CountersAt;
    assert (inputs + [input])[..|inputs|] == inputs;
    var st := Run(cfg, inputs);
    ForwardedIsRenumbered(cfg, inputs);
    AccountDecides(st.cache, Notices(st.accepted), Decode(cfg, input.item).update.Notice(), cfg.cap);
  }

  /** The update an input carries passes the gates and the order check. */
  predicate PassesChecks(cfg: Config, st: LoopState, input: Input)
    requires input.Message? && Decode(cfg, input.item).Data?
  {
    var u := Decode(cfg, input.item).update.Notice();
    Fresh(u, cfg.gates, input.rooted) && InOrder(Notices(st.accepted), u, cfg.cap)
  }

  /** Every update handed on passed the gates with the rooted slot that was read
      when it was checked: at the input that comes after those before it were
      handed on. */
  lemma {:induction false} ForwardedIsFresh(cfg: Config, inputs: seq<Input>, i: nat) returns (k: nat)
    requires cfg.cap > 0 && i < |Run(cfg, inputs).accepted|
    ensures k < |inputs| && inputs[k].Message?
    ensures Run(cfg, inputs[..k]).accepted == Run(cfg, inputs).accepted[..i]
    ensures Run(cfg, inputs[..k + 1]).accepted == Run(cfg, inputs).accepted[..i + 1]
    ensures Decode(cfg, inputs[k].item) == Data(Run(cfg, inputs).accepted[i])
    ensures Fresh(Run(cfg, inputs).accepted[i].Notice(), cfg.gates, inputs[k].rooted)
  {
    hide Account, Fresh, Decode;
    var n := |inputs| - 1;
    if i < |Run(cfg, inputs[..n]).accepted| {
      k := ForwardedIsFresh(cfg, inputs[..n], i);
      assert inputs[..n][..k] == inputs[..k] && inputs[..n][..k + 1] == inputs[..k + 1];
    } else {
      k := n;
      assert inputs[..n + 1] == inputs;
    }
  }

  /** The input carries update u to the loop, u passes both gates, and the
      loop's receiver is there to take it. */
  predicate Carries(cfg: Config, input: Input, u: Update) {
    && input.Message? && !input.receiverGone && Decode(cfg, input.item) == Data(u)
    && Fresh(u.Notice(), cfg.gates, input.rooted)
  }

  lemma NextIsAccepted(cfg: Config, inputs: seq<Input>, input: Input, u: Update)
    requires cfg.cap > 0 && Run(cfg, inputs).outcome.Running? && Carries(cfg, input, u)
    requires InOrder(Notices(Run(cfg, inputs).accepted), u.Notice(), cfg.cap)
    ensures Run(cfg, inputs + [input]).accepted == Run(cfg, inputs).accepted + [u]
    ensures Run(cfg, inputs + [input]).outcome.Running?
  {
    hide InOrder, Number, Fresh, Run;
    UpdateDecision(cfg, inputs, input, u);
    AcceptedIsPrefix(cfg, inputs);
    AcceptedIsPrefix(cfg, inputs + [input]);
    assert (inputs + [input])[..|inputs|] == inputs;
  }

  /** Inputs that carry updates in the order the loop checks are all accepted. */
  lemma {:induction false} CarriedAreAccepted(cfg: Config, inputs: seq<Input>, us: seq<Update>)
    requires cfg.cap > 0 && |inputs| == |us| && AllInOrder(Notices(us), cfg.cap)
    requires forall k :: 0 <= k < |us| ==> Carries(cfg, inputs[k], us[k])
    ensures Run(cfg, inputs).accepted == us && Run(cfg, inputs).outcome.Running?
  {
    hide AllInOrder, InOrder, Carries, Turn, Notices;
    if us != [] {
      var n := |us| - 1;
      var front, last := inputs[..n], inputs[n];
      InOrderFront(us, cfg.cap);
      CarriedAreAccepted(cfg, front, us[..n]);
      NextIsAccepted(cfg, front, last, us[n]);
      assert inputs == front + [last] && us == us[..n] + [us[n]];
    }
  }

  lemma InOrderFront(us: seq<Update>, cap: nat)
    requires us != [] && AllInOrder(Notices(us), cap)
    ensures var n := |us| - 1;
      AllInOrder(Notices(us[..n]), cap) && InOrder(Notices(us[..n]), us[n].Notice(), cap)
  {
    hide InOrder, AllInOrder;
    NoticesFront(us);
    AllInOrderFront(Notices(us), cap);
  }

  lemma NoticesFront(us: seq<Update>)
    requires us != []
    ensures Notices(us)[..|us| - 1] == Notices(us[..|us| - 1])
  {
  }

  lemma AllInOrderFront(ns: seq<Notice>, cap: nat)
    requires ns != [] && AllInOrder(ns, cap)
    ensures AllInOrder(ns[..|ns| - 1], cap) && InOrder(ns[..|ns| - 1], ns[|ns| - 1], cap)
  {
    hide InOrder;
    var n := |ns| - 1;
    forall k | 0 <= k < n ensures InOrder(ns[..n][..k], ns[..n][k], cap) {
      assert ns[..n][..k] == ns[..k];
    }
  }

  /** The module promises slots that never go back. Both gates leave room: slot
      9 after slot 10 is handed on whenever 9 is no older than the header and
      the rooted slot allows. */
  lemma SlotsMayGoBack(cfg: Config, a: Update, b: Update, x: Input, y: Input)
    requires cfg.cap > 0 && a.Notice().slot == 10 && b.Notice().slot == 9
    requires Carries(cfg, x, a) && Carries(cfg, y, b)
    ensures Run(cfg, [x, y]).accepted == [a, b] && Run(cfg, [x, y]).outcome.Running?
  {
    hide InOrder, Carries, Run;
    var ns := Notices([a, b]);
    assert ns == [a.Notice(), b.Notice()] && ns[..1] == [a.Notice()];
    assert Slots(ns[..0]) == [] && Slots(ns[..1]) == [10];
    NewSlotIsInOrder(ns[..0], ns[0], cfg.cap);
    NewSlotIsInOrder(ns[..1], ns[1], cfg.cap);
    CarriedAreAccepted(cfg, [x, y], [a, b]);
  }

  /** The module promises an error on any account update received out of order.
      For the next update of an account in a slot the loop keeps the promise
      exactly when the slot is too old for the gates, or no accepted update of
      the account, in any slot, exceeds the one sequence compared with. */
  lemma OutOfOrderPromise(cfg: Config, inputs: seq<Input>, rooted: nat, s: Slot, pk: Protocol.Bytes)
    requires cfg.cap > 0 && Run(cfg, inputs).outcome.Running?
    ensures var ns := Notices(Run(cfg, inputs).accepted);
      (forall seqNo: nat :: LateForAccount(ns, Notice(s, pk, seqNo)) ==>
        !(Fresh(Notice(s, pk, seqNo), cfg.gates, rooted) && InOrder(ns, Notice(s, pk, seqNo), cfg.cap)))
      <==>
      (|| !Fresh(Notice(s, pk, 0), cfg.gates, rooted)
       || forall k :: 0 <= k < |ns| && ns[k].pubkey == pk ==> ns[k].seqNo <= Bound(ns, s, pk, cfg.cap))
  {
    hide Run, Notices, InOrder, Bound, LateForAccount;
    OrderCheckCatchesIff(Notices(Run(cfg, inputs).accepted), s, pk, cfg.cap);
  }

  /** The promise read within one slot. */
  lemma OutOfOrderPromiseInSlot(cfg: Config, inputs: seq<Input>, rooted: nat, s: Slot, pk: Protocol.Bytes)
    requires cfg.cap > 0 && Run(cfg, inputs).outcome.Running?
    ensures var ns := Notices(Run(cfg, inputs).accepted);
      (forall seqNo: nat :: Late(ns, Notice(s, pk, seqNo)) ==>
        !(Fresh(Notice(s, pk, seqNo), cfg.gates, rooted) && InOrder(ns, Notice(s, pk, seqNo), cfg.cap)))
      <==>
      (|| !Fresh(Notice(s, pk, 0), cfg.gates, rooted)
       || forall k :: 0 <= k < |ns| && ns[k].slot == s && ns[k].pubkey == pk ==>
            ns[k].seqNo <= Bound(ns, s, pk, cfg.cap))
  {
    hide Run, Notices, InOrder, Bound, Late;
    OrderCheckCatchesInSlotIff(Notices(Run(cfg, inputs).accepted), s, pk, cfg.cap);
  }

  /** Raw sequences 5, 9, 7 for one account in one slot are all handed on. */
  lemma OutOfOrderIsAccepted(cfg: Config, inputs: seq<Input>, us: seq<Update>, s: Slot, pk: Protocol.Bytes)
    requires cfg.cap > 0 && |inputs| == |us|
    requires Notices(us) == [Notice(s, pk, 5), Notice(s, pk, 9), Notice(s, pk, 7)]
    requires forall k :: 0 <= k < |us| ==> Carries(cfg, inputs[k], us[k])
    ensures Run(cfg, inputs).accepted == us && Run(cfg, inputs).outcome.Running?
    ensures Late(Notices(us)[..2], Notices(us)[2])
  {
    hide Run, Notices, Carries;
    LateInSlotPasses(s, pk, cfg.cap);
    CarriedAreAccepted(cfg, inputs, us);
    assert Notices(us)[..2] == [Notice(s, pk, 5), Notice(s, pk, 9)];
  }

  /** So are raw sequences 100 and then 50 in two different slots. */
  lemma OutOfOrderAcrossSlotsIsAccepted(cfg: Config, inputs: seq<Input>, us: seq<Update>, s: Slot, t: Slot,
                                        pk: Protocol.Bytes)
    requires cfg.cap > 0 && |inputs| == |us| && s != t
    requires Notices(us) == [Notice(s, pk, 100), Notice(t, pk, 50)]
    requires forall k :: 0 <= k < |us| ==> Carries(cfg, inputs[k], us[k])
    ensures Run(cfg, inputs).accepted == us && Run(cfg, inputs).outcome.Running?
    ensures LateForAccount(Notices(us)[..1], Notices(us)[1])
  {
    hide Run, Notices, Carries;
    LateAcrossSlotsPasses(s, t, pk, cfg.cap);
    CarriedAreAccepted(cfg, inputs, us);
    assert Notices(us)[..1] == [Notice(s, pk, 100)];
  }

  function HighestSlot(us: seq<Update>): nat {
    if us == [] then 0 else Max(HighestSlot(us[..|us| - 1]), us[|us| - 1].Notice().slot)
  }

  lemma {:induction false} LatestIsHighest(cfg: Config, inputs: seq<Input>)
    requires cfg.cap > 0
    ensures var st := Run(cfg, inputs);
      st.outcome.Running? ==> st.latestWriteSlot == HighestSlot(st.accepted)
  {
    hide Process, Decode;
    if inputs != [] {
      var st := Run(cfg, inputs[..|inputs| - 1]);
      LatestIsHighest(cfg, inputs[..|inputs| - 1]);
      assert forall u :: (st.accepted + [u])[..|st.accepted|] == st.accepted;
    }
  }

  /** The promise of slots that never go back holds of the next update of any
      one account exactly when the highest slot handed on is itself no higher
      than the header or the rooted slot less its distance. */
  lemma MonotonePromise(cfg: Config, inputs: seq<Input>, rooted: nat, pk: Protocol.Bytes)
    requires cfg.cap > 0 && Run(cfg, inputs).outcome.Running?
    ensures var st := Run(cfg, inputs);
      (forall u: Notice :: u.pubkey == pk && u.slot < HighestSlot(st.accepted) ==>
        !(Fresh(u, cfg.gates, rooted) && InOrder(Notices(st.accepted), u, cfg.cap)))
      <==>
      (|| HighestSlot(st.accepted) <= cfg.gates.oldestWriteSlot
       || HighestSlot(st.accepted) + cfg.gates.maxRootedSlotDistance <= rooted)
  {
    hide Run, First;
    var st := Run(cfg, inputs);
    var bound := Max(cfg.gates.oldestWriteSlot, StaleBelow(cfg.gates, rooted));
    if HighestSlot(st.accepted) > bound {
      var ref := Reference(Notices(st.accepted), Notice(bound, pk, 0), cfg.cap);
      var u := Notice(bound, pk, if ref.Some? then ref.value else 0);
      assert Fresh(u, cfg.gates, rooted) && InOrder(Notices(st.accepted), u, cfg.cap);
    }
  }

  // ----- the heartbeat watchdog

  /** A heartbeat message of the partial stream. */
  predicate IsBeat(cfg: Config, input: Input) {
    cfg.partials && input.Message? && input.item == Item(Protocol.PartialMsg(Some(Protocol.Hb)))
  }

  function LastBeat(cfg: Config, inputs: seq<Input>): nat {
    if inputs == [] then cfg.start
    else
      var input := inputs[|inputs| - 1];
      if IsBeat(cfg, input) then input.at else LastBeat(cfg, inputs[..|inputs| - 1])
  }

  predicate AlarmAt(cfg: Config, inputs: seq<Input>, i: nat)
    requires i < |inputs|
  {
    cfg.partials && inputs[i].Tick? && inputs[i].now > LastBeat(cfg, inputs[..i]) + cfg.expiration
  }

  lemma {:induction false} BeatIsRemembered(cfg: Config, inputs: seq<Input>)
    requires cfg.cap > 0 && Run(cfg, inputs).outcome.Running?
    ensures Run(cfg, inputs).lastHeartbeat == LastBeat(cfg, inputs)
  {
    hide Process, Decode;
    if inputs != [] {
      BeatIsRemembered(cfg, inputs[..|inputs| - 1]);
      if inputs[|inputs| - 1].Message? {
        Decoding.BeatIff(cfg, inputs[|inputs| - 1].item);
      }
    }
  }

  /** A run ends in MissedHeartbeat exactly at its first tick more than the
      allowance after the last processed heartbeat; updates do not matter. */
  lemma AlarmIffExpired(cfg: Config, inputs: seq<Input>, i: nat)
    requires cfg.cap > 0 && i < |inputs| && Run(cfg, inputs[..i]).outcome.Running?
    ensures Run(cfg, inputs[..i + 1]).outcome == Failed(MissedHeartbeat) <==> AlarmAt(cfg, inputs, i)
  {
    hide Account;
    assert inputs[..i + 1][..i] == inputs[..i];
    BeatIsRemembered(cfg, inputs[..i]);
  }

  lemma {:induction false} MissedHeartbeatHasAlarm(cfg: Config, inputs: seq<Input>) returns (i: nat)
    requires cfg.cap > 0 && Run(cfg, inputs).outcome == Failed(MissedHeartbeat)
    ensures i < |inputs| && AlarmAt(cfg, inputs, i)
  {
    hide Account;
    var n := |inputs| - 1;
    if Run(cfg, inputs[..n]).outcome.Running? {
      i := n;
      assert inputs[..n + 1] == inputs;
      AlarmIffExpired(cfg, inputs, n);
    } else {
      i := MissedHeartbeatHasAlarm(cfg, inputs[..n]);
      assert inputs[..n][..i] == inputs[..i];
    }
  }

  /** The clock as it stands at an input. */
  function Clock(input: Input): nat {
    match input
    case Exit => 0
    case Tick(now) => now
    case Message(_, at, _, _, _) => at
  }

  predicate BeatAt(cfg: Config, inputs: seq<Input>, j: nat)
    requires j < |inputs|
  {
    IsBeat(cfg, inputs[j])
  }

  /** The clock read at a heartbeat is no earlier than at any input before it. A
      tick carries the time it was due, which may lie before that of a message
      handled earlier. */
  ghost predicate Timed(cfg: Config, inputs: seq<Input>) {
    forall i, j :: 0 <= i < j < |inputs| && !inputs[i].Exit? && BeatAt(cfg, inputs, j) ==>
      Clock(inputs[i]) <= Clock(inputs[j])
  }

  /** Heartbeats keep their pace: each is processed within the allowance of the
      one before it, and the run ends within the allowance of the last. */
  ghost predicate KeepsPace(cfg: Config, inputs: seq<Input>) {
    && (forall j :: 0 <= j < |inputs| && BeatAt(cfg, inputs, j) ==>
          Clock(inputs[j]) <= LastBeat(cfg, inputs[..j]) + cfg.expiration)
    && (forall j :: 0 <= j < |inputs| ==> Clock(inputs[j]) <= LastBeat(cfg, inputs) + cfg.expiration)
  }

  /** An input comes within the allowance of the heartbeat before it: no later
      than the next heartbeat, or than the end if there is none. The search for
      that heartbeat has reached m. */
  lemma {:induction false} PaceBoundsClock(cfg: Config, inputs: seq<Input>, i: nat, m: nat)
    requires Timed(cfg, inputs) && KeepsPace(cfg, inputs)
    requires i < m <= |inputs| && !inputs[i].Exit?
    requires LastBeat(cfg, inputs[..m]) == LastBeat(cfg, inputs[..i])
    ensures Clock(inputs[i]) <= LastBeat(cfg, inputs[..i]) + cfg.expiration
    decreases |inputs| - m
  {
    if m == |inputs| {
      assert inputs[..m] == inputs;
    } else if BeatAt(cfg, inputs, m) {
      assert Clock(inputs[i]) <= Clock(inputs[m]);
    } else {
      assert inputs[..m + 1][..m] == inputs[..m];
      PaceBoundsClock(cfg, inputs, i, m + 1);
    }
  }

  /** No false alarm while heartbeats keep their pace. */
  lemma NoFalseAlarm(cfg: Config, inputs: seq<Input>)
    requires cfg.cap > 0 && Timed(cfg, inputs) && KeepsPace(cfg, inputs)
    ensures Run(cfg, inputs).outcome != Failed(MissedHeartbeat)
  {
    hide KeepsPace, Timed, Run;
    if Run(cfg, inputs).outcome == Failed(MissedHeartbeat) {
      var i := MissedHeartbeatHasAlarm(cfg, inputs);
      assert inputs[..i + 1][..i] == inputs[..i];
      PaceBoundsClock(cfg, inputs, i, i + 1);
    }
  }

  /** Ticks come at most an interval apart, counted from the last heartbeat on. */
  ghost predicate OnSchedule(inputs: seq<Input>, from: nat, last: nat, interval: nat) {
    forall j :: from <= j < |inputs| && inputs[j].Tick? ==>
      || inputs[j].now <= last + interval
      || exists i :: from <= i < j && inputs[i].Tick? && inputs[j].now <= inputs[i].now + interval
  }

  /** If heartbeats stop, the first late tick comes within an interval of the
      allowance running out. */
  lemma {:induction false} FirstLateTick(cfg: Config, inputs: seq<Input>, from: nat, last: nat, interval: nat, j: nat)
    returns (i: nat)
    requires from <= j < |inputs| && inputs[j].Tick? && inputs[j].now > last + cfg.expiration
    requires OnSchedule(inputs, from, last, interval)
    ensures from <= i <= j && inputs[i].Tick?
    ensures last + cfg.expiration < inputs[i].now <= last + cfg.expiration + interval
    decreases j
  {
    if inputs[j].now <= last + cfg.expiration + interval {
      i := j;
    } else {
      var k :| from <= k < j && inputs[k].Tick? && inputs[j].now <= inputs[k].now + interval;
      i := FirstLateTick(cfg, inputs, from, last, interval, k);
    }
  }

  lemma {:induction false} NoBeatKeepsLast(cfg: Config, inputs: seq<Input>, from: nat, i: nat)
    requires from <= i <= |inputs|
    requires forall j :: from <= j < i ==> !BeatAt(cfg, inputs, j)
    ensures LastBeat(cfg, inputs[..i]) == LastBeat(cfg, inputs[..from])
  {
    if from < i {
      assert inputs[..i][..i - 1] == inputs[..i - 1] && !BeatAt(cfg, inputs, i - 1);
      NoBeatKeepsLast(cfg, inputs, from, i - 1);
    }
  }

  /** With heartbeats stopped at time last and ticks on schedule, the loop is over
      by a tick no later than last + allowance + interval, whatever data arrives. */
  lemma SilenceIsDetected(cfg: Config, inputs: seq<Input>, from: nat, interval: nat, j: nat) returns (i: nat)
    requires cfg.cap > 0 && cfg.partials && from <= j < |inputs|
    requires forall k :: from <= k < |inputs| ==> !BeatAt(cfg, inputs, k)
    requires OnSchedule(inputs, from, LastBeat(cfg, inputs[..from]), interval)
    requires inputs[j].Tick? && inputs[j].now > LastBeat(cfg, inputs[..from]) + cfg.expiration
    ensures from <= i <= j && inputs[i].Tick?
    ensures inputs[i].now <= LastBeat(cfg, inputs[..from]) + cfg.expiration + interval
    ensures !Run(cfg, inputs[..i + 1]).outcome.Running?
    ensures Run(cfg, inputs[..i]).outcome.Running? ==> Run(cfg, inputs[..i + 1]).outcome == Failed(MissedHeartbeat)
  {
    i := FirstLateTick(cfg, inputs, from, LastBeat(cfg, inputs[..from]), interval, j);
    NoBeatKeepsLast(cfg, inputs, from, i);
    assert inputs[..i + 1][..i] == inputs[..i];
    if Run(cfg, inputs[..i]).outcome.Running? {
      AlarmIffExpired(cfg, inputs, i);
    }
  }
}
