/**
  What a subscriber asked for and what a message tells it, in their own words:
  the reference that the fan-out of Protocol is held against.
 */
module Meaning {
  import opened Wrappers
  import opened Protocol

  /** The request asks for the event. */
  predicate Asks(f: Filter, e: Event)
    requires HasPayload(e)
  {
    match e
    case Heartbeat => f.Partials?
    case AccountEvent(t) =>
      || (f.Accounts? && t.accountUpdate.value.pubkey in f.accounts)
      || (f.Programs? && t.accountUpdate.value.owner in f.programs)
      || (f.Partials? && (f.skipVotes ==> t.accountUpdate.value.owner != VOTE_PROGRAM_ID))
    case SlotEvent(_) => f.Slots?
    case EntryEvent(_) => f.Entries?
    case TransactionEvent(_) => f.Transactions?
    case BlockEvent(_) => f.Blocks?
  }

  /** A partial update repeats seven fields of the account update it stands for. */
  predicate Repeats(p: PartialAccountUpdate, u: AccountUpdate) {
    && p.slot == u.slot && p.pubkey == u.pubkey && p.owner == u.owner && p.isStartup == u.isStartup
    && p.seqNo == u.seqNo && p.txSignature == u.txSignature && p.replicaVersion == u.replicaVersion
  }

  /** The message reports the event to a subscriber of the request. */
  predicate Reports(f: Filter, m: Msg, e: Event) {
    match e
    case Heartbeat => f.Partials? && m == PartialMsg(Some(Hb))
    case AccountEvent(t) =>
      if f.Partials? then
        && m.PartialMsg? && m.payload.Some? && m.payload.value.Update? && t.accountUpdate.Some?
        && Repeats(m.payload.value.update, t.accountUpdate.value)
      else (f.Accounts? || f.Programs?) && m.FullMsg? && m.update == t
    case SlotEvent(n) => f.Slots? && m == SlotMsg(n)
    case EntryEvent(n) => f.Entries? && m == EntryMsg(n)
    case TransactionEvent(n) => f.Transactions? && m == TransactionMsg(n)
    case BlockEvent(n) => f.Blocks? && m == BlockMsg(n)
  }

  /** A subscriber is offered exactly what it asked for, reported faithfully. */
  lemma OfferMeans(f: Filter, e: Event)
    requires HasPayload(e)
    ensures Offer(f, e).Some? <==> Asks(f, e)
    ensures Offer(f, e).Some? ==> Reports(f, Offer(f, e).value, e)
  {
  }

  /** The partial message of an account update, field by field. */
  lemma PartialRepeats(skip: bool, t: TimestampedAccountUpdate, p: PartialAccountUpdate)
    requires t.accountUpdate.Some?
    requires Offer(Partials(skip), AccountEvent(t)) == Some(PartialMsg(Some(Update(p))))
    ensures p.slot == t.accountUpdate.value.slot && p.pubkey == t.accountUpdate.value.pubkey
    ensures p.owner == t.accountUpdate.value.owner && p.isStartup == t.accountUpdate.value.isStartup
    ensures p.seqNo == t.accountUpdate.value.seqNo && p.txSignature == t.accountUpdate.value.txSignature
    ensures p.replicaVersion == t.accountUpdate.value.replicaVersion
  {
  }

  // ----- lists of messages against lists of events

  /** The messages report events, one each and in order: at gives the event that
      each message reports. */
  ghost predicate Reporting(f: Filter, events: seq<Event>, ms: seq<Msg>, at: seq<int>) {
    && |at| == |ms|
    && (forall i :: 0 <= i < |at| ==> 0 <= at[i] < |events| && Reports(f, ms[i], events[at[i]]))
    && (forall i, j :: 0 <= i < j < |at| ==> at[i] < at[j])
  }

  /** They report exactly the events asked for. */
  ghost predicate Answers(f: Filter, events: seq<Event>, ms: seq<Msg>, at: seq<int>)
    requires forall i :: 0 <= i < |events| ==> HasPayload(events[i])
  {
    && Reporting(f, events, ms, at)
    && (forall k :: 0 <= k < |events| ==> (k in at <==> Asks(f, events[k])))
  }

  ghost predicate Answered(f: Filter, events: seq<Event>, ms: seq<Msg>)
    requires forall i :: 0 <= i < |events| ==> HasPayload(events[i])
  {
    exists at: seq<int> :: Answers(f, events, ms, at)
  }

  lemma AnswersGrow(f: Filter, events: seq<Event>, ms: seq<Msg>, at: seq<int>, e: Event, m: Msg)
    requires (forall i :: 0 <= i < |events| ==> HasPayload(events[i])) && HasPayload(e)
    requires Answers(f, events, ms, at) && Asks(f, e) && Reports(f, m, e)
    ensures Answers(f, events + [e], ms + [m], at + [|events|])
  {
    hide Asks, Reports;
    var events', at' := events + [e], at + [|events|];
    forall k | 0 <= k < |events'| ensures k in at' <==> Asks(f, events'[k]) {
      if k < |events| {
        assert k in at' <==> k in at;
      } else {
        assert at'[|at|] == k;
      }
    }
  }

  lemma AnswersSkip(f: Filter, events: seq<Event>, ms: seq<Msg>, at: seq<int>, e: Event)
    requires (forall i :: 0 <= i < |events| ==> HasPayload(events[i])) && HasPayload(e)
    requires Answers(f, events, ms, at) && !Asks(f, e)
    ensures Answers(f, events + [e], ms, at)
  {
    hide Asks, Reports;
    var events' := events + [e];
    forall k | 0 <= k < |events'| ensures k in at <==> Asks(f, events'[k]) {
    }
  }

  // ----- the vote program

  function Power(base: nat, n: nat): nat {
    if n == 0 then 1 else base * Power(base, n - 1)
  }

  lemma {:induction false} PowerAdds(base: nat, m: nat, n: nat)
    ensures Power(base, m + n) == Power(base, m) * Power(base, n)
  {
    if m == 0 {
      assert 1 * Power(base, n) == Power(base, n);
    } else {
      var a, b := Power(base, m - 1), Power(base, n);
      PowerAdds(base, m - 1, n);
      Associative(base, a, b);
    }
  }

  lemma Associative(x: nat, y: nat, z: nat)
    ensures x * (y * z) == (x * y) * z
  {
  }

  lemma PowerOf58()
    ensures Power(58, 39) == 593870494997887150811749638256055268791095420855094114057306213711872
  {
    assert Power(58, 13) == 84055070416556869132288;
    PowerAdds(58, 13, 13);
    PowerAdds(58, 13, 26);
  }

  /** Value of a byte string, most significant byte first. */
  function BigEndian(b: Bytes): nat {
    if b == [] then 0 else 256 * BigEndian(b[..|b| - 1]) + b[|b| - 1]
  }

  lemma BigEndianSnoc(b: Bytes, x: Byte)
    ensures BigEndian(b + [x]) == 256 * BigEndian(b) + x
  {
    assert (b + [x])[..|b|] == b;
  }

  lemma BigEndianFour(b: Bytes, x: Byte, y: Byte, z: Byte, t: Byte)
    ensures BigEndian(b + [x, y, z, t]) == 0x1_0000_0000 * BigEndian(b) + 0x100_0000 * x + 0x1_0000 * y + 0x100 * z + t
  {
    assert b + [x, y, z, t] == b + [x] + [y] + [z] + [t];
    BigEndianSnoc(b, x);
    BigEndianSnoc(b + [x], y);
    BigEndianSnoc(b + [x] + [y], z);
    BigEndianSnoc(b + [x] + [y] + [z], t);
  }

  /** The id is the 32 bytes of the base58 text "Vote" followed by 39 times the
      zero digit "1"; V, o, t and e are the digits 28, 46, 51 and 37. */
  lemma VoteProgramId()
    ensures |VOTE_PROGRAM_ID| == 32
    ensures BigEndian(VOTE_PROGRAM_ID) == (((28 * 58 + 46) * 58 + 51) * 58 + 37) * Power(58, 39)
  {
    hide BigEndian, Power;
    VoteValue();
    PowerOf58();
  }

  lemma VoteValue()
    ensures BigEndian(VOTE_PROGRAM_ID) == 3338071818571248938818993247932504658966148473698877128351861063997718528000
  {
    hide BigEndian;
    EmptyIsZero();
    var id := VOTE_PROGRAM_ID;
    assert id[..0] == [];
    BigEndianFour(id[..0], 7, 97, 72, 29);
    assert id[..0] + [7, 97, 72, 29] == id[..4];
    BigEndianFour(id[..4], 53, 116, 116, 187);
    assert id[..4] + [53, 116, 116, 187] == id[..8];
    BigEndianFour(id[..8], 124, 77, 118, 36);
    assert id[..8] + [124, 77, 118, 36] == id[..12];
    BigEndianFour(id[..12], 235, 211, 189, 179);
    assert id[..12] + [235, 211, 189, 179] == id[..16];
    BigEndianFour(id[..16], 216, 53, 94, 115);
    assert id[..16] + [216, 53, 94, 115] == id[..20];
    BigEndianFour(id[..20], 209, 16, 67, 252);
    assert id[..20] + [209, 16, 67, 252] == id[..24];
    BigEndianFour(id[..24], 13, 163, 83, 128);
    assert id[..24] + [13, 163, 83, 128] == id[..28];
    BigEndianFour(id[..28], 0, 0, 0, 0);
    assert id[..28] + [0, 0, 0, 0] == id[..32];
    assert id[..32] == id;
  }

  lemma EmptyIsZero()
    ensures BigEndian([]) == 0
  {
  }
}
