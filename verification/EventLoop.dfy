/**
  The event loop as it runs: seven mutable tables of subscriptions, each holding
  the sending half of its subscriber's channel. Every turn is proved to act on
  the tables and channels exactly as the corresponding step of Broker, whatever
  order the tables are iterated in.
 */
module EventLoop {
  import opened Wrappers
  import opened Protocol
  import opened FanOut
  import opened Broker
  import opened Registry
  import opened SevenTables

  /** A bounded channel: the loop holds its sender, the client's stream its receiver. */
  class Wire {
    const capacity: nat
    ghost const owner: Uuid
    var queue: seq<Msg>
    var closed: bool

    ghost function View(): Buf
      reads this
    {
      Buf(queue, capacity, closed)
    }

    constructor (capacity: nat, ghost owner: Uuid)
      ensures View() == Buf([], capacity, false) && this.owner == owner
    {
      this.capacity := capacity;
      this.owner := owner;
      queue, closed := [], false;
    }

    method Offer(m: Msg) returns (r: SendOutcome)
      modifies this
      ensures r == Outcome(old(View())) && (r.Closed? <==> old(closed))
      ensures r.Full? <==> !old(closed) && |old(queue)| >= capacity
      ensures closed == old(closed) && queue == if r.Sent? then old(queue) + [m] else old(queue)
      ensures View() == TrySend(old(View()), m)
    {
      if closed {
        r := SendOutcome.Closed;
      } else if |queue| >= capacity {
        r := Full;
      } else {
        queue := queue + [m];
        r := Sent;
      }
    }
  }

  datatype Subscription = Subscription(tx: Wire, filter: Filter)

  type SubscriptionTable = map<Uuid, Subscription>

  function Filters(table: SubscriptionTable): Subs {
    map id | id in table :: table[id].filter
  }

  /** The table after dropping a list of ids. */
  ghost function Kept(table: SubscriptionTable, ids: seq<Uuid>): SubscriptionTable {
    map id | id in table && id !in ids :: table[id]
  }

  ghost predicate Distinct(ids: seq<Uuid>) {
    forall i, j :: 0 <= i < j < |ids| ==> ids[i] != ids[j]
  }

  lemma DistinctConcat(a: seq<Uuid>, b: seq<Uuid>)
    requires Distinct(a) && Distinct(b) && forall id :: id in a ==> id !in b
    ensures Distinct(a + b)
  {
    var c := a + b;
    forall i, j | 0 <= i < j < |c| ensures c[i] != c[j] {
      assert i < |a| ==> c[i] in a;
      assert j >= |a| ==> c[j] in b;
    }
  }

  lemma NoneDistinct()
    ensures Distinct([])
  {
  }

  lemma DistinctAppend(ids: seq<Uuid>, id: Uuid)
    requires Distinct(ids) && id !in ids
    ensures Distinct(ids + [id])
  {
  }

  /** Every channel belongs to one subscription. */
  ghost predicate OwnWires(wires: map<Uuid, Wire>) {
    forall id :: id in wires ==> wires[id].owner == id
  }

  /** The table holds exactly the subscriptions of kind k, each with its own channel. */
  ghost predicate Holds(table: SubscriptionTable, k: Kind, subs: Subs, wires: map<Uuid, Wire>) {
    && (forall id :: id in table <==> id in subs && KindOf(subs[id]) == k)
    && (forall id :: id in table ==> id in wires && table[id] == Subscription(wires[id], subs[id]))
  }

  ghost function ValuesOf(wires: map<Uuid, Wire>): set<Wire> {
    set id | id in wires :: wires[id]
  }

  ghost function BufsOf(wires: map<Uuid, Wire>): Bufs
    reads ValuesOf(wires)
  {
    map id | id in wires :: wires[id].View()
  }

  lemma BufsOfInsert(wires: map<Uuid, Wire>, id: Uuid, tx: Wire)
    requires id !in wires
    ensures BufsOf(wires[id := tx]) == BufsOf(wires)[id := tx.View()]
  {
  }

  /** SendAll and Failed, one kind of subscription at a time. */
  function SendKind(subs: Subs, bufs: Bufs, e: Event, k: Kind): Bufs
    requires HasPayload(e)
  {
    map id | id in bufs ::
      if id in subs && KindOf(subs[id]) == k then Deliver(bufs[id], OfferTo(subs, id, e)) else bufs[id]
  }

  function FailedKind(subs: Subs, bufs: Bufs, e: Event, k: Kind): set<Uuid>
    requires HasPayload(e)
  {
    set id | id in Failed(subs, bufs, e) && KindOf(subs[id]) == k
  }

  ghost function WiresOf(table: SubscriptionTable): set<Wire> {
    set id | id in table :: table[id].tx
  }

  ghost predicate Owned(table: SubscriptionTable) {
    forall id :: id in table ==> table[id].tx.owner == id
  }

  /** Iterates one table in any order, sends each matching subscription its
      message, and collects the ids whose receiver is gone, each once. */
  method StreamTo(table: SubscriptionTable, e: Event) returns (failed: seq<Uuid>)
    requires HasPayload(e) && Owned(table)
    modifies WiresOf(table)
    ensures forall id :: id in table ==>
      table[id].tx.View() == Deliver(old(table[id].tx.View()), Protocol.Offer(table[id].filter, e))
    ensures Distinct(failed)
    ensures forall id :: id in failed <==>
      id in table && Protocol.Offer(table[id].filter, e).Some? && old(table[id].tx.closed)
  {
    hide Outcome, TrySend, Protocol.Offer, OfferAccount, Distinct;
    assert Distinct([]) by {
      NoneDistinct();
    }
    failed := [];
    var todo := table.Keys;
    while todo != {}
      invariant todo <= table.Keys
      invariant forall id :: id in todo ==> table[id].tx.View() == old(table[id].tx.View())
      invariant forall id :: id in table && id !in todo ==>
        table[id].tx.View() == Deliver(old(table[id].tx.View()), Protocol.Offer(table[id].filter, e))
      invariant Distinct(failed)
      invariant forall id :: id in failed <==>
        id in table && id !in todo && Protocol.Offer(table[id].filter, e).Some? && old(table[id].tx.closed)
      decreases |todo|
    {
      var id :| id in todo;
      var sub := table[id];
      var offer := Protocol.Offer(sub.filter, e);
      if offer.Some? {
        var outcome := sub.tx.Offer(offer.value);
        if outcome.Closed? {
          DistinctAppend(failed, id);
          failed := failed + [id];
        }
      }
      todo := todo - {id};
    }
  }

  /** Removes broken connections, after offering each a last error status. */
  method DropSubscriptions(ids: seq<Uuid>, table: SubscriptionTable) returns (rest: SubscriptionTable)
    requires Owned(table)
    modifies WiresOf(table)
    ensures rest == Kept(table, ids)
    ensures forall id :: id in table ==>
      table[id].tx.View() ==
      if id in ids then TrySend(old(table[id].tx.View()), BrokenConnection) else old(table[id].tx.View())
  {
    rest := table;
    for i := 0 to |ids|
      invariant rest == Kept(table, ids[..i])
      invariant forall id :: id in table ==>
        table[id].tx.View() ==
        if id in ids[..i] then TrySend(old(table[id].tx.View()), BrokenConnection) else old(table[id].tx.View())
    {
      if ids[i] in rest {
        var sub := rest[ids[i]];
        rest := rest - {ids[i]};
        var _ := sub.tx.Offer(BrokenConnection);
      }
    }
  }

  /** StreamTo on one of the loop's tables, seen on all channels. */
  method StreamKind(table: SubscriptionTable, e: Event, ghost k: Kind, ghost subs: Subs, ghost wires: map<Uuid, Wire>)
    returns (failed: seq<Uuid>)
    requires HasPayload(e) && OwnWires(wires) && Holds(table, k, subs, wires)
    modifies ValuesOf(wires)
    ensures BufsOf(wires) == SendKind(subs, old(BufsOf(wires)), e, k)
    ensures Distinct(failed)
    ensures forall id :: id in failed <==> id in FailedKind(subs, old(BufsOf(wires)), e, k)
  {
    ghost var bufs := BufsOf(wires);
    failed := StreamTo(table, e);
    SendKindMeans(table, e, k, subs, wires, bufs, BufsOf(wires), failed);
  }

  lemma SendKindMeans(table: SubscriptionTable, e: Event, k: Kind, subs: Subs, wires: map<Uuid, Wire>,
                      bufs: Bufs, after: Bufs, failed: seq<Uuid>)
    requires HasPayload(e) && Holds(table, k, subs, wires) && bufs.Keys == after.Keys == wires.Keys
    requires forall id :: id in table ==> after[id] == Deliver(bufs[id], Protocol.Offer(table[id].filter, e))
    requires forall id :: id in wires && id !in table ==> after[id] == bufs[id]
    requires forall id :: id in failed <==> id in table && Protocol.Offer(table[id].filter, e).Some? && bufs[id].closed
    ensures after == SendKind(subs, bufs, e, k)
    ensures forall id :: id in failed <==> id in FailedKind(subs, bufs, e, k)
  {
  }

  /** DropSubscriptions on one of the loop's tables: when every listed receiver
      is gone, no status reaches any channel. */
  method DropKind(ids: seq<Uuid>, table: SubscriptionTable, ghost k: Kind, ghost subs: Subs,
                  ghost wires: map<Uuid, Wire>)
    returns (rest: SubscriptionTable)
    requires OwnWires(wires) && Holds(table, k, subs, wires)
    requires forall id :: id in ids && id in wires ==> BufsOf(wires)[id].closed
    modifies ValuesOf(wires)
    ensures rest == Kept(table, ids)
    ensures BufsOf(wires) == old(BufsOf(wires))
  {
    rest := DropSubscriptions(ids, table);
  }

  type AllTables = SevenTables<Subscription>

  ghost predicate AllHold(t: AllTables, subs: Subs, wires: map<Uuid, Wire>) {
    forall k :: Holds(t.At(k), k, subs, wires)
  }

  /** The tables without the channels, as Registry has them. */
  ghost function AllFilters(t: AllTables): (r: Registry)
    ensures forall k :: r.At(k) == Filters(t.At(k))
  {
    SevenTables(Filters(t.accounts), Filters(t.programs), Filters(t.partials), Filters(t.slots),
                Filters(t.entries), Filters(t.transactions), Filters(t.blocks))
  }

  lemma FiltersAgree(t: SubscriptionTable, k: Kind, subs: Subs, wires: map<Uuid, Wire>)
    requires Holds(t, k, subs, wires)
    ensures TableAgrees(Filters(t), k, subs)
  {
  }

  lemma HoldsAt(t: AllTables, k: Kind, subs: Subs, wires: map<Uuid, Wire>)
    requires AllHold(t, subs, wires)
    ensures Holds(t.At(k), k, subs, wires)
  {
  }

  lemma AllHoldAfterAdd(t: AllTables, subs: Subs, wires: map<Uuid, Wire>, a: AddedEvent, tx: Wire)
    requires AllHold(t, subs, wires) && a.id !in subs && a.id !in wires
    ensures var k := KindOf(a.filter);
      AllHold(t.With(k, t.At(k)[a.id := Subscription(tx, a.filter)]), subs[a.id := a.filter], wires[a.id := tx])
  {
    var v := t.With(KindOf(a.filter), t.At(KindOf(a.filter))[a.id := Subscription(tx, a.filter)]);
    forall j ensures Holds(v.At(j), j, subs[a.id := a.filter], wires[a.id := tx]) {
      assert Holds(t.At(j), j, subs, wires);
    }
  }

  lemma AllHoldAfterDrop(t: AllTables, subs: Subs, wires: map<Uuid, Wire>, bufs: Bufs, e: Event)
    requires AllHold(t, subs, wires) && HasPayload(e)
    ensures AllHold(t.DropFrom(e, Failed(subs, bufs, e)), Survivors(subs, bufs, e), wires)
  {
    var u := t.DropFrom(e, Failed(subs, bufs, e));
    forall id | id in Failed(subs, bufs, e) ensures Targets(e, KindOf(subs[id])) {
      OfferedOnlyToTargets(subs[id], e);
    }
    forall k ensures Holds(u.At(k), k, Survivors(subs, bufs, e), wires) {
      assert Holds(t.At(k), k, subs, wires);
    }
  }

  /** The same for an event that targets one table. */
  lemma AllHoldAfterOneDrop(t: AllTables, subs: Subs, wires: map<Uuid, Wire>, bufs: Bufs, e: Event, k: Kind,
                            kept: SubscriptionTable)
    requires AllHold(t, subs, wires) && subs.Keys <= wires.Keys
    requires !e.AccountEvent? && Targets(e, k) && kept == t.At(k) - Failed(subs, bufs, e)
    ensures AllHold(t.With(k, kept), Survivors(subs, bufs, e), wires)
    ensures Survivors(subs, bufs, e).Keys <= wires.Keys
  {
    hide AllHold, Failed;
    AllHoldAfterDrop(t, subs, wires, bufs, e);
    assert t.With(k, kept) == t.DropFrom(e, Failed(subs, bufs, e));
  }

  lemma KeptIsMinus(table: SubscriptionTable, ids: seq<Uuid>, gone: set<Uuid>)
    requires forall id :: id in table ==> (id in ids <==> id in gone)
    ensures Kept(table, ids) == table - gone
  {
  }

  /** An event other than an account update targets one kind of subscription. */
  lemma OneKindIsAll(subs: Subs, bufs: Bufs, e: Event, k: Kind)
    requires HasPayload(e) && !e.AccountEvent? && Targets(e, k)
    ensures SendKind(subs, bufs, e, k) == SendAll(subs, bufs, e)
    ensures FailedKind(subs, bufs, e, k) == Failed(subs, bufs, e)
  {
  }

  lemma ThreeKindsAreAll(subs: Subs, bufs: Bufs, update: TimestampedAccountUpdate)
    requires update.accountUpdate.Some?
    ensures var e := AccountEvent(update);
      var b1 := SendKind(subs, bufs, e, KAccounts);
      var b2 := SendKind(subs, b1, e, KPartials);
      && SendKind(subs, b2, e, KPrograms) == SendAll(subs, bufs, e)
      && FailedKind(subs, b1, e, KPartials) == FailedKind(subs, bufs, e, KPartials)
      && FailedKind(subs, b2, e, KPrograms) == FailedKind(subs, bufs, e, KPrograms)
      && FailedKind(subs, bufs, e, KAccounts) + FailedKind(subs, bufs, e, KPartials)
         + FailedKind(subs, bufs, e, KPrograms) == Failed(subs, bufs, e)
  {
  }

  /** The three lists of failures, chained, are all failures, each once. */
  lemma ChainedFailures(subs: Subs, bufs: Bufs, e: Event, a: seq<Uuid>, b: seq<Uuid>, c: seq<Uuid>)
    requires e.AccountEvent? && HasPayload(e) && Distinct(a) && Distinct(b) && Distinct(c)
    requires forall id :: id in a <==> id in FailedKind(subs, bufs, e, KAccounts)
    requires forall id :: id in b <==> id in FailedKind(subs, bufs, e, KPartials)
    requires forall id :: id in c <==> id in FailedKind(subs, bufs, e, KPrograms)
    ensures Distinct(a + b + c) && forall id :: id in a + b + c <==> id in Failed(subs, bufs, e)
  {
    hide Distinct, Failed, SendAll, SendKind;
    ThreeKindsAreAll(subs, bufs, e.update);
    DistinctConcat(a, b);
    DistinctConcat(a + b, c);
  }

  lemma ClosedStaysClosed(subs: Subs, bufs: Bufs, e: Event)
    requires HasPayload(e)
    ensures forall id :: id in Failed(subs, bufs, e) ==> SendAll(subs, bufs, e)[id].closed
  {
  }

  lemma AllHoldAfterClose(t: AllTables, subs: Subs, wires: map<Uuid, Wire>, c: ClosedEvent)
    requires AllHold(t, subs, wires)
    ensures AllHold(t.With(c.kind, t.At(c.kind) - {c.id}), CloseSub(subs, c), wires)
  {
    var v := t.With(c.kind, t.At(c.kind) - {c.id});
    forall j ensures Holds(v.At(j), j, CloseSub(subs, c), wires) {
      assert Holds(t.At(j), j, subs, wires);
    }
  }

  class EventLoop {
    var accounts: SubscriptionTable
    var programs: SubscriptionTable
    var partials: SubscriptionTable
    var slots: SubscriptionTable
    var entries: SubscriptionTable
    var transactions: SubscriptionTable
    var blocks: SubscriptionTable

    /** All channels handed to the loop so far, by subscription. */
    ghost var wires: map<Uuid, Wire>

    /** The seven tables as one map. */
    ghost var subs: Subs

    ghost function Tables(): Registry
      reads this
    {
      AllFilters(All())
    }

    ghost function Wires(): set<Wire>
      reads this
    {
      ValuesOf(wires)
    }

    ghost function Bufs(): Bufs
      reads this, Wires()
    {
      BufsOf(wires)
    }

    function All(): AllTables
      reads this
    {
      SevenTables(accounts, programs, partials, slots, entries, transactions, blocks)
    }

    ghost predicate Valid()
      reads this
    {
      OwnWires(wires) && subs.Keys <= wires.Keys && AllHold(All(), subs, wires)
    }

    /** The turn acts as the fan-out step of Broker. */
    twostate predicate FansOut(e: Event)
      requires HasPayload(e)
      reads this, Wires()
    {
      && Valid() && wires == old(wires)
      && subs == Survivors(old(subs), old(Bufs()), e)
      && Bufs() == SendAll(old(subs), old(Bufs()), e)
    }

    twostate predicate Unmoved()
      reads this, Wires()
    {
      Valid() && wires == old(wires) && subs == old(subs) && Bufs() == old(Bufs())
    }

    constructor ()
      ensures Valid() && subs == map[] && wires == map[]
    {
      accounts, programs, partials, slots := map[], map[], map[], map[];
      entries, transactions, blocks := map[], map[], map[];
      wires, subs := map[], map[];
    }

    lemma ValidAgrees()
      requires Valid()
      ensures Agrees(Tables(), subs)
    {
      hide Holds, TableAgrees, Filters, AllFilters;
      forall k ensures TableAgrees(Tables().At(k), k, subs) {
        FiltersAgree(All().At(k), k, subs, wires);
      }
    }

    method SetTable(k: Kind, t: SubscriptionTable)
      modifies `accounts, `programs, `partials, `slots, `entries, `transactions, `blocks
      ensures All() == old(All()).With(k, t)
    {
      match k {
        case KAccounts => accounts := t;
        case KPrograms => programs := t;
        case KPartials => partials := t;
        case KSlots => slots := t;
        case KEntries => entries := t;
        case KTransactions => transactions := t;
        case KBlocks => blocks := t;
      }
    }

    /** Handles an added event, or stops when the channel is disconnected. */
    method OnAdded(maybe: Option<(AddedEvent, Wire)>) returns (ok: bool)
      requires Valid()
      requires maybe.Some? ==> maybe.value.0.id !in wires && maybe.value.1.owner == maybe.value.0.id
      modifies this
      ensures Valid() && ok == maybe.Some?
      ensures maybe.None? ==> subs == old(subs) && wires == old(wires)
      ensures maybe.Some? ==>
        var (a, tx) := maybe.value;
        subs == old(subs)[a.id := a.filter] && wires == old(wires)[a.id := tx]
      ensures forall w :: w in old(Wires()) ==> unchanged(w)
    {
      hide Holds, AllHold;
      if maybe.None? {
        return false;
      }
      var (a, tx) := maybe.value;
      var k := KindOf(a.filter);
      AllHoldAfterAdd(All(), subs, wires, a, tx);
      SetTable(k, All().At(k)[a.id := Subscription(tx, a.filter)]);
      wires := wires[a.id := tx];
      subs := subs[a.id := a.filter];
      ok := true;
    }

    /** Handles a closed event: removes the id from the table of its kind. */
    method OnClosed(maybe: Option<ClosedEvent>) returns (ok: bool)
      requires Valid()
      modifies this
      ensures Valid() && ok == maybe.Some? && wires == old(wires)
      ensures subs == if maybe.Some? then CloseSub(old(subs), maybe.value) else old(subs)
      ensures forall w :: w in old(Wires()) ==> unchanged(w)
    {
      hide Holds, AllHold;
      if maybe.None? {
        return false;
      }
      var c := maybe.value;
      AllHoldAfterClose(All(), subs, wires, c);
      SetTable(c.kind, All().At(c.kind) - {c.id});
      subs := CloseSub(subs, c);
      ok := true;
    }

    /** Fans one update out to the three account tables; the ids returned are
        those of the subscribers whose receiver is gone, each once. */
    method HandleAccountUpdateEvent(update: TimestampedAccountUpdate) returns (failed: seq<Uuid>)
      requires Valid() && update.accountUpdate.Some?
      modifies Wires()
      ensures Bufs() == SendAll(subs, old(Bufs()), AccountEvent(update))
      ensures Distinct(failed)
      ensures forall id :: id in failed <==> id in Failed(subs, old(Bufs()), AccountEvent(update))
    {
      hide Deliver, Holds, Offer, Distinct, Failed, FailedKind, SendAll, SendKind;
      var e := AccountEvent(update);
      ghost var bufs := Bufs();
      HoldsAt(All(), KAccounts, subs, wires);
      HoldsAt(All(), KPartials, subs, wires);
      HoldsAt(All(), KPrograms, subs, wires);
      var failedAccounts := StreamKind(accounts, e, KAccounts, subs, wires);
      var failedPartials := StreamKind(partials, e, KPartials, subs, wires);
      var failedPrograms := StreamKind(programs, e, KPrograms, subs, wires);
      ThreeKindsAreAll(subs, bufs, update);
      ChainedFailures(subs, bufs, e, failedAccounts, failedPartials, failedPrograms);
      failed := failedAccounts + failedPartials + failedPrograms;
    }

    method KeepAccountTables(failed: seq<Uuid>)
      returns (keptAccounts: SubscriptionTable, keptPartials: SubscriptionTable, keptPrograms: SubscriptionTable)
      requires Valid() && forall id :: id in failed && id in wires ==> Bufs()[id].closed
      modifies Wires()
      ensures Bufs() == old(Bufs())
      ensures keptAccounts == Kept(accounts, failed) && keptPartials == Kept(partials, failed)
      ensures keptPrograms == Kept(programs, failed)
    {
      HoldsAt(All(), KAccounts, subs, wires);
      keptAccounts := DropKind(failed, accounts, KAccounts, subs, wires);
      HoldsAt(All(), KPartials, subs, wires);
      keptPartials := DropKind(failed, partials, KPartials, subs, wires);
      HoldsAt(All(), KPrograms, subs, wires);
      keptPrograms := DropKind(failed, programs, KPrograms, subs, wires);
    }

    /** Drops the failed ids from the three account tables. */
    method DropFromAccountTables(failed: seq<Uuid>, ghost e: Event, ghost bufs: Bufs)
      requires Valid() && e.AccountEvent? && HasPayload(e)
      requires forall id :: id in failed <==> id in Failed(subs, bufs, e)
      requires forall id :: id in failed && id in wires ==> Bufs()[id].closed
      modifies this, Wires()
      ensures Valid() && wires == old(wires)
      ensures subs == Survivors(old(subs), bufs, e) && Bufs() == old(Bufs())
    {
      hide Deliver, Holds, AllHold, Failed, FailedKind, SendAll;
      var keptAccounts, keptPartials, keptPrograms := KeepAccountTables(failed);
      ghost var tables, survivors := All().DropFrom(e, Failed(subs, bufs, e)), Survivors(subs, bufs, e);
      assert AllHold(tables, survivors, wires) by {
        AllHoldAfterDrop(All(), subs, wires, bufs, e);
      }
      KeptIsMinus(accounts, failed, Failed(subs, bufs, e));
      KeptIsMinus(partials, failed, Failed(subs, bufs, e));
      KeptIsMinus(programs, failed, Failed(subs, bufs, e));
      assert survivors.Keys <= wires.Keys;
      accounts, partials, programs := keptAccounts, keptPartials, keptPrograms;
      subs := survivors;
      assert All() == tables;
    }

    /** A turn on an account update, or a stop when the channel is disconnected. */
    method OnAccountUpdate(maybe: Option<TimestampedAccountUpdate>) returns (ok: bool)
      requires Valid() && (maybe.Some? ==> maybe.value.accountUpdate.Some?)
      modifies this, Wires()
      ensures ok == maybe.Some?
      ensures if maybe.Some? then FansOut(AccountEvent(maybe.value)) else Unmoved()
    {
      if maybe.None? {
        return false;
      }
      ghost var e, bufs := AccountEvent(maybe.value), Bufs();
      var failed := HandleAccountUpdateEvent(maybe.value);
      ClosedStaysClosed(subs, bufs, e);
      DropFromAccountTables(failed, e, bufs);
      ok := true;
    }

    /** Fans an event out over the one table it targets. */
    method StreamAndDrop(table: SubscriptionTable, e: Event, ghost k: Kind) returns (kept: SubscriptionTable)
      requires Valid() && Holds(table, k, subs, wires)
      requires !e.AccountEvent? && Targets(e, k)
      modifies Wires()
      ensures Bufs() == SendAll(subs, old(Bufs()), e)
      ensures kept == table - Failed(subs, old(Bufs()), e)
    {
      ghost var bufs := Bufs();
      var failed := StreamKind(table, e, k, subs, wires);
      OneKindIsAll(subs, bufs, e, k);
      ClosedStaysClosed(subs, bufs, e);
      kept := DropKind(failed, table, k, subs, wires);
      KeptIsMinus(table, failed, Failed(subs, bufs, e));
    }

    /** A turn on an event that targets one table. */
    method FanOutOverOne(e: Event, k: Kind)
      requires Valid() && !e.AccountEvent? && Targets(e, k)
      modifies this, Wires()
      ensures FansOut(e)
    {
      hide Deliver, Holds, AllHold, SendAll, Survivors, Failed;
      ghost var bufs := Bufs();
      HoldsAt(All(), k, subs, wires);
      var kept := StreamAndDrop(All().At(k), e, k);
      ghost var after := BufsOf(wires);
      AllHoldAfterOneDrop(All(), subs, wires, bufs, e, k, kept);
      SetTable(k, kept);
      subs := Survivors(subs, bufs, e);
      assert Valid() && wires == old(wires);
      assert BufsOf(wires) == after;
    }

    /** A turn on a heartbeat tick. */
    method OnHeartbeat()
      requires Valid()
      modifies this, Wires()
      ensures FansOut(Heartbeat)
    {
      FanOutOverOne(Heartbeat, KPartials);
    }

    // Turns on the four unfiltered channels; each stops the loop when its
    // channel is disconnected.

    method OnSlotUpdate(maybe: Option<nat>) returns (ok: bool)
      requires Valid()
      modifies this, Wires()
      ensures ok == maybe.Some?
      ensures if maybe.Some? then FansOut(SlotEvent(maybe.value)) else Unmoved()
    {
      if maybe.None? {
        return false;
      }
      FanOutOverOne(SlotEvent(maybe.value), KSlots);
      ok := true;
    }

    method OnSlotEntryUpdate(maybe: Option<nat>) returns (ok: bool)
      requires Valid()
      modifies this, Wires()
      ensures ok == maybe.Some?
      ensures if maybe.Some? then FansOut(EntryEvent(maybe.value)) else Unmoved()
    {
      if maybe.None? {
        return false;
      }
      FanOutOverOne(EntryEvent(maybe.value), KEntries);
      ok := true;
    }

    method OnTransactionUpdate(maybe: Option<nat>) returns (ok: bool)
      requires Valid()
      modifies this, Wires()
      ensures ok == maybe.Some?
      ensures if maybe.Some? then FansOut(TransactionEvent(maybe.value)) else Unmoved()
    {
      if maybe.None? {
        return false;
      }
      FanOutOverOne(TransactionEvent(maybe.value), KTransactions);
      ok := true;
    }

    method OnBlockUpdate(maybe: Option<nat>) returns (ok: bool)
      requires Valid()
      modifies this, Wires()
      ensures ok == maybe.Some?
      ensures if maybe.Some? then FansOut(BlockEvent(maybe.value)) else Unmoved()
    {
      if maybe.None? {
        return false;
      }
      FanOutOverOne(BlockEvent(maybe.value), KBlocks);
      ok := true;
    }
  }
}
