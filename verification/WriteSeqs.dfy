/**
  The consumer's bounded LRU of per-slot account counters, and what it computes:
  the numbers it hands out are counts that can be told from the sequence of
  accepted updates alone, without the cache.
 */
module WriteSeqs {
  import opened Wrappers
  import opened Protocol

  type Slot = nat

  const ACCOUNT_WRITE_SEQS_CACHE_SIZE := 5000

  /** What the ordering logic sees of an update. */
  datatype Notice = Notice(slot: Slot, pubkey: Bytes, seqNo: nat)

  datatype AccountWriteSeq = AccountWriteSeq(globalSeq: nat, slotSeq: nat)

  type Counters = map<Bytes, AccountWriteSeq>

  /** order lists the cached slots, most recently used first. */
  datatype Cache = Cache(order: seq<Slot>, table: map<Slot, Counters>)

  const EMPTY := Cache([], map[])

  function Without(order: seq<Slot>, s: Slot): seq<Slot> {
    if order == [] then []
    else (if order[0] == s then [] else [order[0]]) + Without(order[1..], s)
  }

  function ToFront(order: seq<Slot>, s: Slot): seq<Slot> {
    [s] + Without(order, s)
  }

  function Take<T>(xs: seq<T>, n: nat): seq<T> {
    if |xs| <= n then xs else xs[..n]
  }

  /** get_or_insert_mut: promotes a cached slot, or makes room and adds it empty. */
  function Touch(c: Cache, s: Slot, cap: nat): Cache
    requires cap > 0
  {
    if s in c.table then c.(order := ToFront(c.order, s))
    else if |c.order| >= cap then
      var victim := c.order[|c.order| - 1];
      Cache([s] + c.order[..|c.order| - 1], (c.table - {victim})[s := map[]])
    else Cache([s] + c.order, c.table[s := map[]])
  }

  function EntryOf(counters: Counters, u: Notice): AccountWriteSeq {
    if u.pubkey in counters then counters[u.pubkey] else AccountWriteSeq(u.seqNo, 0)
  }

  function CountersAt(c: Cache, s: Slot): Counters {
    if s in c.table then c.table[s] else map[]
  }

  /** The part of process_update after the staleness gates: the new cache, and
      the slot sequence handed out unless the update is out of order. */
  function Account(c: Cache, u: Notice, cap: nat): (Cache, Option<nat>)
    requires cap > 0
  {
    var d := Touch(c, u.slot, cap);
    var counters := CountersAt(d, u.slot);
    var entry := EntryOf(counters, u);
    if u.seqNo < entry.globalSeq then (d.(table := d.table[u.slot := counters[u.pubkey := entry]]), None)
    else
      var counted := counters[u.pubkey := entry.(slotSeq := entry.slotSeq + 1)];
      (d.(table := d.table[u.slot := counted]), Some(entry.slotSeq))
  }

  // ----- recency without a bound

  /** Distinct slots of a run of accesses, latest access first. */
  function Recency(accesses: seq<Slot>): seq<Slot> {
    if accesses == [] then [] else ToFront(Recency(accesses[..|accesses| - 1]), accesses[|accesses| - 1])
  }

  /** Distinct slots accessed after the last access of s. */
  function DistinctSince(accesses: seq<Slot>, s: Slot): set<Slot> {
    if accesses == [] then {}
    else var n := |accesses| - 1;
         if accesses[n] == s then {} else DistinctSince(accesses[..n], s) + {accesses[n]}
  }

  ghost predicate NoDuplicates(order: seq<Slot>) {
    forall i, j :: 0 <= i < j < |order| ==> order[i] != order[j]
  }

  lemma {:induction false} WithoutMeans(order: seq<Slot>, s: Slot)
    requires NoDuplicates(order)
    ensures NoDuplicates(Without(order, s))
    ensures forall x :: x in Without(order, s) <==> x in order && x != s
    ensures s !in order ==> Without(order, s) == order
  {
    if order != [] {
      assert NoDuplicates(order[1..]);
      WithoutMeans(order[1..], s);
      assert forall x :: x in order <==> x == order[0] || x in order[1..];
      var rest := Without(order[1..], s);
      assert order[0] !in order[1..];
      assert order == [order[0]] + order[1..];
    }
  }

  lemma {:induction false} RecencyMeans(accesses: seq<Slot>)
    ensures NoDuplicates(Recency(accesses))
    ensures forall x :: x in Recency(accesses) <==> x in accesses
  {
    if accesses != [] {
      var n := |accesses| - 1;
      RecencyMeans(accesses[..n]);
      WithoutMeans(Recency(accesses[..n]), accesses[n]);
      assert accesses == accesses[..n] + [accesses[n]];
    }
  }

  lemma {:induction false} WithoutSplits(a: seq<Slot>, b: seq<Slot>, s: Slot)
    ensures Without(a + b, s) == Without(a, s) + Without(b, s)
  {
    if a == [] {
      assert a + b == b;
    } else {
      assert (a + b)[1..] == a[1..] + b;
      WithoutSplits(a[1..], b, s);
    }
  }

  /** Touching the first cap slots of a recency list keeps them the first cap. */
  lemma PrefixAfterHit(r: seq<Slot>, s: Slot, cap: nat)
    requires NoDuplicates(r) && s in Take(r, cap)
    ensures ToFront(Take(r, cap), s) == Take(ToFront(r, s), cap)
  {
    if |r| > cap {
      assert r == r[..cap] + r[cap..];
      WithoutSplits(r[..cap], r[cap..], s);
      WithoutOne(r[..cap], s);
      assert s !in r[cap..];
      WithoutMeans(r[cap..], s);
    } else {
      WithoutOne(r, s);
    }
  }

  lemma PrefixAfterMiss(r: seq<Slot>, s: Slot, cap: nat)
    requires cap > 0 && NoDuplicates(r) && s !in Take(r, cap)
    ensures [s] + Take(r, cap - 1) == Take(ToFront(r, s), cap)
  {
    if |r| > cap {
      assert r == r[..cap] + r[cap..];
      WithoutSplits(r[..cap], r[cap..], s);
      WithoutMeans(r[..cap], s);
      assert ToFront(r, s) == [s] + r[..cap] + Without(r[cap..], s);
    } else {
      WithoutMeans(r, s);
    }
  }

  ghost predicate TableMatchesOrder(c: Cache) {
    NoDuplicates(c.order) && forall x :: x in c.table <==> x in c.order
  }

  /** The inclusion property of LRU: the cached slots, in order, are the most
      recently used ones, as many as fit; other slots keep their counters. */
  lemma TouchKeepsPrefix(r: seq<Slot>, s: Slot, cap: nat, c: Cache)
    requires cap > 0 && NoDuplicates(r) && c.order == Take(r, cap) && TableMatchesOrder(c)
    ensures Touch(c, s, cap).order == Take(ToFront(r, s), cap)
  {
    if s in c.table {
      PrefixAfterHit(r, s, cap);
    } else {
      PrefixAfterMiss(r, s, cap);
    }
  }

  lemma EvictionKeepsTable(s: Slot, c: Cache)
    requires TableMatchesOrder(c) && c.order != [] && s !in c.table
    ensures var n := |c.order| - 1;
      TableMatchesOrder(Cache([s] + c.order[..n], (c.table - {c.order[n]})[s := map[]]))
  {
    var n := |c.order| - 1;
    var d := Cache([s] + c.order[..n], (c.table - {c.order[n]})[s := map[]]);
    assert c.order == c.order[..n] + [c.order[n]];
    forall x ensures x in d.table <==> x in d.order {
      assert x in c.order <==> x in c.order[..n] || x == c.order[n];
      assert c.order[n] !in c.order[..n];
    }
  }

  lemma TouchKeepsTable(s: Slot, cap: nat, c: Cache)
    requires cap > 0 && TableMatchesOrder(c) && |c.order| <= cap
    ensures TableMatchesOrder(Touch(c, s, cap)) && |Touch(c, s, cap).order| <= cap
    ensures forall x :: x != s && x in Touch(c, s, cap).table ==>
      x in c.table && Touch(c, s, cap).table[x] == c.table[x]
    ensures s in Touch(c, s, cap).table && CountersAt(Touch(c, s, cap), s) == CountersAt(c, s)
  {
    hide Without;
    if s in c.table {
      WithoutMeans(c.order, s);
      WithoutOne(c.order, s);
    } else if |c.order| >= cap {
      EvictionKeepsTable(s, c);
    }
  }

  lemma {:induction false} WithoutOne(order: seq<Slot>, s: Slot)
    requires NoDuplicates(order) && s in order
    ensures |Without(order, s)| == |order| - 1
  {
    if order[0] == s {
      assert NoDuplicates(order[1..]) && s !in order[1..];
      WithoutMeans(order[1..], s);
    } else {
      assert NoDuplicates(order[1..]) && s in order[1..];
      WithoutOne(order[1..], s);
    }
  }

  // ----- hits, told from the accesses alone

  /** A slot is cached at its next access exactly when it was accessed before
      and fewer than cap distinct slots were accessed since. */
  predicate Hit(accesses: seq<Slot>, s: Slot, cap: nat) {
    s in accesses && |DistinctSince(accesses, s)| < cap
  }

  /** Bringing another slot to the front leaves s behind it and behind exactly
      the slots it was behind before. */
  lemma PositionAfterTouch(r: seq<Slot>, j: nat, s: Slot, last: Slot) returns (k: nat)
    requires NoDuplicates(r) && j < |r| && r[j] == s && last != s
    ensures k < |ToFront(r, last)| && ToFront(r, last)[k] == s
    ensures forall x :: x in ToFront(r, last)[..k] <==> x == last || x in r[..j]
  {
    assert r == r[..j] + [s] + r[j + 1..];
    WithoutSplits(r[..j] + [s], r[j + 1..], last);
    WithoutSplits(r[..j], [s], last);
    assert Without([s], last) == [s];
    WithoutMeans(r[..j], last);
    var front := [last] + Without(r[..j], last);
    assert ToFront(r, last) == front + [s] + Without(r[j + 1..], last);
    k := |front|;
    assert ToFront(r, last)[..k] == front;
  }

  /** The slots ahead of s in the recency list are those accessed since s. */
  lemma {:induction false} RecencyPosition(accesses: seq<Slot>, s: Slot) returns (k: nat)
    requires s in accesses
    ensures k < |Recency(accesses)| && Recency(accesses)[k] == s
    ensures forall x :: x in Recency(accesses)[..k] <==> x in DistinctSince(accesses, s)
    ensures k == |DistinctSince(accesses, s)|
  {
    hide ToFront;
    var n := |accesses| - 1;
    RecencyMeans(accesses);
    if accesses[n] == s {
      k := 0;
      FrontIsFirst(Recency(accesses[..n]), s);
    } else {
      assert accesses == accesses[..n] + [accesses[n]];
      var j := RecencyPosition(accesses[..n], s);
      RecencyMeans(accesses[..n]);
      k := PositionAfterTouch(Recency(accesses[..n]), j, s, accesses[n]);
      PrefixSize(Recency(accesses), k, DistinctSince(accesses, s));
    }
  }

  lemma FrontIsFirst(r: seq<Slot>, s: Slot)
    ensures |ToFront(r, s)| > 0 && ToFront(r, s)[0] == s
  {
  }

  lemma {:induction false} PrefixSize(order: seq<Slot>, k: nat, elements: set<Slot>)
    requires NoDuplicates(order) && k <= |order|
    requires forall x :: x in order[..k] <==> x in elements
    ensures |elements| == k
  {
    if k == 0 {
      assert elements == {};
    } else {
      var x := order[k - 1];
      assert order[..k] == order[..k - 1] + [x];
      assert x !in order[..k - 1];
      PrefixSize(order, k - 1, elements - {x});
      assert x in elements;
    }
  }

  lemma CachedIffHit(accesses: seq<Slot>, s: Slot, cap: nat)
    ensures s in Take(Recency(accesses), cap) <==> Hit(accesses, s, cap)
  {
    RecencyMeans(accesses);
    if s in accesses {
      var k := RecencyPosition(accesses, s);
      var r := Recency(accesses);
      if |r| > cap && k >= cap {
        assert s !in r[..cap];
      } else if |r| > cap {
        assert r[..cap][k] == s;
      }
    }
  }

  // ----- what the counters mean

  /** The slots of a run of accepted updates, as accesses. */
  function Slots(us: seq<Notice>): seq<Slot> {
    if us == [] then [] else Slots(us[..|us| - 1]) + [us[|us| - 1].slot]
  }

  /** Accepted updates for a pair since the slot's counters were last created. */
  function Since(us: seq<Notice>, s: Slot, pk: Bytes, cap: nat): nat {
    if us == [] then 0
    else
      var n := |us| - 1;
      if us[n].slot != s then Since(us[..n], s, pk, cap)
      else (if Hit(Slots(us[..n]), s, cap) then Since(us[..n], s, pk, cap) else 0)
           + (if us[n].pubkey == pk then 1 else 0)
  }

  /** Raw sequence of the first of those updates. */
  function First(us: seq<Notice>, s: Slot, pk: Bytes, cap: nat): Option<nat> {
    if us == [] then None
    else
      var n := |us| - 1;
      if us[n].slot != s then First(us[..n], s, pk, cap)
      else
        var before := if Hit(Slots(us[..n]), s, cap) then First(us[..n], s, pk, cap) else None;
        if us[n].pubkey == pk && before.None? then Some(us[n].seqNo) else before
  }

  /** Accepted updates for a pair in the whole run. */
  function Count(us: seq<Notice>, s: Slot, pk: Bytes): nat {
    if us == [] then 0
    else var n := |us| - 1;
         Count(us[..n], s, pk) + (if us[n].slot == s && us[n].pubkey == pk then 1 else 0)
  }

  /** The number the next update u is given after the accepted updates us. */
  function Number(us: seq<Notice>, u: Notice, cap: nat): nat {
    if Hit(Slots(us), u.slot, cap) then Since(us, u.slot, u.pubkey, cap) else 0
  }

  /** The only raw sequence u is compared with, if any. */
  function Reference(us: seq<Notice>, u: Notice, cap: nat): Option<nat> {
    if Hit(Slots(us), u.slot, cap) then First(us, u.slot, u.pubkey, cap) else None
  }

  predicate InOrder(us: seq<Notice>, u: Notice, cap: nat) {
    Reference(us, u, cap).Some? ==> u.seqNo >= Reference(us, u, cap).value
  }

  ghost predicate CountersMean(counters: Counters, us: seq<Notice>, s: Slot, cap: nat) {
    forall pk ::
      && (pk in counters <==> First(us, s, pk, cap).Some?)
      && (pk in counters ==> counters[pk] == AccountWriteSeq(First(us, s, pk, cap).value, Since(us, s, pk, cap)))
      && (pk !in counters ==> Since(us, s, pk, cap) == 0)
  }

  /** The cache holds what the accepted updates say it should. */
  ghost predicate Faithful(c: Cache, us: seq<Notice>, cap: nat) {
    && c.order == Take(Recency(Slots(us)), cap) && TableMatchesOrder(c)
    && forall s :: s in c.table ==> CountersMean(c.table[s], us, s, cap)
  }

  lemma SlotsSnoc(us: seq<Notice>, u: Notice)
    ensures Slots(us + [u]) == Slots(us) + [u.slot]
    ensures Recency(Slots(us + [u])) == ToFront(Recency(Slots(us)), u.slot)
  {
    assert (us + [u])[..|us|] == us;
    assert (Slots(us) + [u.slot])[..|Slots(us)|] == Slots(us);
  }

  lemma FaithfulHit(c: Cache, us: seq<Notice>, s: Slot, cap: nat)
    requires Faithful(c, us, cap)
    ensures s in c.table <==> Hit(Slots(us), s, cap)
  {
    CachedIffHit(Slots(us), s, cap);
  }

  /** What process_update decides and numbers, told from the accepted updates. */
  lemma AccountDecides(c: Cache, us: seq<Notice>, u: Notice, cap: nat)
    requires cap > 0 && Faithful(c, us, cap)
    ensures Account(c, u, cap).1 == if InOrder(us, u, cap) then Some(Number(us, u, cap)) else None
  {
    FaithfulHit(c, us, u.slot, cap);
    TakeLength(Recency(Slots(us)), cap);
    TouchKeepsTable(u.slot, cap, c);
    if u.slot in c.table {
      assert CountersMean(c.table[u.slot], us, u.slot, cap);
    }
  }

  lemma TakeLength(r: seq<Slot>, cap: nat)
    ensures |Take(r, cap)| <= cap
  {
  }

  lemma CountersAfter(counters: Counters, us: seq<Notice>, u: Notice, cap: nat)
    requires counters == map[] || CountersMean(counters, us, u.slot, cap)
    requires Hit(Slots(us), u.slot, cap) ==> CountersMean(counters, us, u.slot, cap)
    requires !Hit(Slots(us), u.slot, cap) ==> counters == map[]
    ensures var entry := EntryOf(counters, u);
      CountersMean(counters[u.pubkey := entry.(slotSeq := entry.slotSeq + 1)], us + [u], u.slot, cap)
  {
    assert (us + [u])[..|us|] == us;
  }

  lemma OtherCounters(counters: Counters, us: seq<Notice>, u: Notice, s: Slot, cap: nat)
    requires CountersMean(counters, us, s, cap) && s != u.slot
    ensures CountersMean(counters, us + [u], s, cap)
  {
    assert (us + [u])[..|us|] == us;
  }

  lemma AcceptKeepsFaithful(c: Cache, us: seq<Notice>, u: Notice, cap: nat)
    requires cap > 0 && Faithful(c, us, cap) && Account(c, u, cap).1.Some?
    ensures Faithful(Account(c, u, cap).0, us + [u], cap)
  {
    var r := Recency(Slots(us));
    var d, after := Touch(c, u.slot, cap), Account(c, u, cap).0;
    RecencyMeans(Slots(us));
    SlotsSnoc(us, u);
    TakeLength(r, cap);
    TouchKeepsPrefix(r, u.slot, cap, c);
    TouchKeepsTable(u.slot, cap, c);
    FaithfulHit(c, us, u.slot, cap);
    CountersAfter(CountersAt(d, u.slot), us, u, cap);
    forall s | s in after.table ensures CountersMean(after.table[s], us + [u], s, cap) {
      if s != u.slot {
        assert c.table[s] == after.table[s];
        OtherCounters(c.table[s], us, u, s, cap);
      }
    }
  }

  /** An out-of-order update changes no counter and evicts no slot. */
  lemma RejectChangesNothing(c: Cache, u: Notice, cap: nat)
    requires cap > 0 && TableMatchesOrder(c) && |c.order| <= cap && Account(c, u, cap).1.None?
    ensures Account(c, u, cap).0.table == c.table
    ensures forall s :: s in Account(c, u, cap).0.order <==> s in c.order
  {
    TouchKeepsTable(u.slot, cap, c);
    WithoutMeans(c.order, u.slot);
    var counters := CountersAt(c, u.slot);
    assert counters[u.pubkey := counters[u.pubkey]] == counters;
    assert c.table[u.slot := counters] == c.table;
  }

  /** Cache after the accepted updates us. */
  function Fold(us: seq<Notice>, cap: nat): Cache
    requires cap > 0
  {
    if us == [] then EMPTY else Account(Fold(us[..|us| - 1], cap), us[|us| - 1], cap).0
  }

  ghost predicate AllInOrder(us: seq<Notice>, cap: nat) {
    forall k :: 0 <= k < |us| ==> InOrder(us[..k], us[k], cap)
  }

  lemma EmptyIsFaithful(cap: nat)
    ensures Faithful(EMPTY, [], cap)
  {
    assert Recency([]) == [];
  }

  lemma {:induction false} FoldIsFaithful(us: seq<Notice>, cap: nat)
    requires cap > 0 && AllInOrder(us, cap)
    ensures Faithful(Fold(us, cap), us, cap)
  {
    hide Faithful, InOrder, Account;
    if us == [] {
      EmptyIsFaithful(cap);
    } else {
      var n := |us| - 1;
      assert forall k :: 0 <= k < n ==> us[..n][..k] == us[..k];
      FoldIsFaithful(us[..n], cap);
      assert InOrder(us[..n], us[n], cap);
      AccountDecides(Fold(us[..n], cap), us[..n], us[n], cap);
      AcceptKeepsFaithful(Fold(us[..n], cap), us[..n], us[n], cap);
      assert us == us[..n] + [us[n]];
    }
  }

  // ----- against the unbounded counter

  /** At access k the slot comes back after cap or more distinct other slots. */
  ghost predicate ForgottenAt(us: seq<Notice>, k: nat, s: Slot, cap: nat)
    requires k < |us|
  {
    us[k].slot == s && s in Slots(us[..k]) && !Hit(Slots(us[..k]), s, cap)
  }

  ghost predicate NothingForgotten(us: seq<Notice>, s: Slot, pk: Bytes, cap: nat) {
    forall k :: 0 <= k < |us| && ForgottenAt(us, k, s, cap) ==> Count(us[..k], s, pk) == 0
  }

  lemma {:induction false} CountGrows(us: seq<Notice>, k: nat, s: Slot, pk: Bytes)
    requires k <= |us|
    ensures Count(us[..k], s, pk) <= Count(us, s, pk)
  {
    if k < |us| {
      assert us[..|us| - 1][..k] == us[..k];
      CountGrows(us[..|us| - 1], k, s, pk);
    } else {
      assert us[..k] == us;
    }
  }

  lemma NothingForgottenSnoc(us: seq<Notice>, s: Slot, pk: Bytes, cap: nat)
    requires us != []
    ensures var n := |us| - 1;
      NothingForgotten(us, s, pk, cap) <==>
      NothingForgotten(us[..n], s, pk, cap) && (ForgottenAt(us, n, s, cap) ==> Count(us[..n], s, pk) == 0)
  {
    var n := |us| - 1;
    assert forall k :: 0 <= k < n ==> us[..n][..k] == us[..k] && us[..n][k] == us[k];
    assert forall k :: 0 <= k < n ==> (ForgottenAt(us[..n], k, s, cap) <==> ForgottenAt(us, k, s, cap));
  }

  lemma {:induction false} SinceIsCount(us: seq<Notice>, s: Slot, pk: Bytes, cap: nat)
    ensures Since(us, s, pk, cap) <= Count(us, s, pk)
    ensures Since(us, s, pk, cap) == Count(us, s, pk) <==> NothingForgotten(us, s, pk, cap)
    ensures s !in Slots(us) ==> Count(us, s, pk) == 0
  {
    if us != [] {
      var n := |us| - 1;
      SinceIsCount(us[..n], s, pk, cap);
      NothingForgottenSnoc(us, s, pk, cap);
      if Count(us[..n], s, pk) == 0 {
        forall k | 0 <= k < n ensures Count(us[..n][..k], s, pk) == 0 {
          CountGrows(us[..n], k, s, pk);
        }
      }
    }
  }

  /** The bounded cache hands out the unbounded count of earlier accepted updates
      for the pair exactly when no such update came before an access at which
      the slot had been forgotten. */
  lemma NumberIsCount(us: seq<Notice>, u: Notice, cap: nat)
    ensures Number(us, u, cap) <= Count(us, u.slot, u.pubkey)
    ensures Number(us, u, cap) == Count(us, u.slot, u.pubkey) <==>
      NothingForgotten(us + [u], u.slot, u.pubkey, cap)
  {
    var vs, n := us + [u], |us|;
    assert vs[..n] == us && vs[n] == u;
    NothingForgottenSnoc(vs, u.slot, u.pubkey, cap);
    SinceIsCount(us, u.slot, u.pubkey, cap);
    if Count(us, u.slot, u.pubkey) == 0 {
      forall k | 0 <= k < n ensures Count(us[..k], u.slot, u.pubkey) == 0 {
        CountGrows(us, k, u.slot, u.pubkey);
      }
    }
  }

  lemma NewSlotIsInOrder(us: seq<Notice>, u: Notice, cap: nat)
    requires u.slot !in Slots(us)
    ensures InOrder(us, u, cap)
  {
  }

  /** In particular with fewer than cap distinct other slots between any two
      consecutive accesses of the slot. */
  lemma CloseAccessesGiveCount(us: seq<Notice>, u: Notice, cap: nat)
    requires forall k :: 0 <= k <= |us| && (us + [u])[k].slot == u.slot && u.slot in Slots((us + [u])[..k]) ==>
      |DistinctSince(Slots((us + [u])[..k]), u.slot)| < cap
    ensures Number(us, u, cap) == Count(us, u.slot, u.pubkey)
  {
    NumberIsCount(us, u, cap);
  }

  // ----- the order the code keeps

  /** u comes after an accepted update for its pair with a higher raw sequence. */
  ghost predicate Late(us: seq<Notice>, u: Notice) {
    exists k :: 0 <= k < |us| && us[k].slot == u.slot && us[k].pubkey == u.pubkey && us[k].seqNo > u.seqNo
  }

  lemma {:induction false} FirstIsOneOf(us: seq<Notice>, s: Slot, pk: Bytes, cap: nat) returns (k: nat)
    requires First(us, s, pk, cap).Some?
    ensures k < |us| && us[k] == Notice(s, pk, First(us, s, pk, cap).value)
  {
    var n := |us| - 1;
    if First(us[..n], s, pk, cap).Some? && First(us, s, pk, cap) == First(us[..n], s, pk, cap) {
      k := FirstIsOneOf(us[..n], s, pk, cap);
    } else {
      k := n;
    }
  }

  /** Every rejection is justified: the update really is late. */
  lemma RejectedIsLate(us: seq<Notice>, u: Notice, cap: nat)
    requires !InOrder(us, u, cap)
    ensures Late(us, u)
  {
    var k := FirstIsOneOf(us, u.slot, u.pubkey, cap);
  }

  /** u comes after an accepted update for its account, in whatever slot, with a
      higher raw sequence. */
  ghost predicate LateForAccount(us: seq<Notice>, u: Notice) {
    exists k :: 0 <= k < |us| && us[k].pubkey == u.pubkey && us[k].seqNo > u.seqNo
  }

  /** The one sequence that the next update for a pair is compared with: the
      first since the slot's counters were created, or none, which is as good as
      zero, when the pair has no counter. */
  function Bound(us: seq<Notice>, s: Slot, pk: Bytes, cap: nat): nat {
    var ref := Reference(us, Notice(s, pk, 0), cap);
    if ref.Some? then ref.value else 0
  }

  lemma InOrderIff(us: seq<Notice>, u: Notice, cap: nat)
    ensures InOrder(us, u, cap) <==> u.seqNo >= Bound(us, u.slot, u.pubkey, cap)
  {
    assert Reference(us, u, cap) == Reference(us, Notice(u.slot, u.pubkey, 0), cap);
  }

  /** What a rejected update was compared with is the bound. */
  lemma RejectedAgainst(c: Cache, us: seq<Notice>, u: Notice, cap: nat)
    requires cap > 0 && Faithful(c, us, cap) && Account(c, u, cap).1.None?
    ensures EntryOf(CountersAt(c, u.slot), u).globalSeq == Bound(us, u.slot, u.pubkey, cap)
  {
    FaithfulHit(c, us, u.slot, cap);
    TakeLength(Recency(Slots(us)), cap);
    TouchKeepsTable(u.slot, cap, c);
    if u.slot in c.table {
      assert CountersMean(c.table[u.slot], us, u.slot, cap);
    }
  }

  /** The order check catches every late update of an account in a slot exactly
      when no accepted update of the account, in any slot, exceeds the bound. */
  lemma OrderCheckCatchesIff(us: seq<Notice>, s: Slot, pk: Bytes, cap: nat)
    ensures
      (forall seqNo: nat :: LateForAccount(us, Notice(s, pk, seqNo)) ==> !InOrder(us, Notice(s, pk, seqNo), cap))
      <==>
      (forall k :: 0 <= k < |us| && us[k].pubkey == pk ==> us[k].seqNo <= Bound(us, s, pk, cap))
  {
    hide InOrder, Bound;
    var bound := Bound(us, s, pk, cap);
    forall seqNo: nat ensures InOrder(us, Notice(s, pk, seqNo), cap) <==> seqNo >= bound {
      InOrderIff(us, Notice(s, pk, seqNo), cap);
    }
    if k :| 0 <= k < |us| && us[k].pubkey == pk && us[k].seqNo > bound {
      assert LateForAccount(us, Notice(s, pk, bound));
    }
  }

  /** With lateness within the slot: the same, with the accepted updates of the
      pair only. */
  lemma OrderCheckCatchesInSlotIff(us: seq<Notice>, s: Slot, pk: Bytes, cap: nat)
    ensures
      (forall seqNo: nat :: Late(us, Notice(s, pk, seqNo)) ==> !InOrder(us, Notice(s, pk, seqNo), cap))
      <==>
      (forall k :: 0 <= k < |us| && us[k].slot == s && us[k].pubkey == pk ==> us[k].seqNo <= Bound(us, s, pk, cap))
  {
    hide InOrder, Bound;
    var bound := Bound(us, s, pk, cap);
    forall seqNo: nat ensures InOrder(us, Notice(s, pk, seqNo), cap) <==> seqNo >= bound {
      InOrderIff(us, Notice(s, pk, seqNo), cap);
    }
    if k :| 0 <= k < |us| && us[k].slot == s && us[k].pubkey == pk && us[k].seqNo > bound {
      assert Late(us, Notice(s, pk, bound));
    }
  }

  /** Raw sequences 5, 9, 7 for one account in one slot all pass the order check. */
  lemma LateInSlotPasses(s: Slot, pk: Bytes, cap: nat)
    requires cap > 0
    ensures AllInOrder([Notice(s, pk, 5), Notice(s, pk, 9), Notice(s, pk, 7)], cap)
    ensures Late([Notice(s, pk, 5), Notice(s, pk, 9)], Notice(s, pk, 7))
  {
    var us := [Notice(s, pk, 5), Notice(s, pk, 9), Notice(s, pk, 7)];
    assert us[..2][..1] == us[..1] && us[..1][..0] == [];
    assert Slots(us[..1]) == [s] && Slots(us[..2]) == [s, s];
    assert First(us[..1], s, pk, cap) == Some(5);
    assert Hit(Slots(us[..1]), s, cap);
    assert First(us[..2], s, pk, cap) == Some(5);
    assert [Notice(s, pk, 5), Notice(s, pk, 9)][1].seqNo > 7;
  }

  /** So do raw sequences 100 and then 50 in two different slots. */
  lemma LateAcrossSlotsPasses(s: Slot, t: Slot, pk: Bytes, cap: nat)
    requires s != t
    ensures AllInOrder([Notice(s, pk, 100), Notice(t, pk, 50)], cap)
    ensures LateForAccount([Notice(s, pk, 100)], Notice(t, pk, 50))
  {
    var us := [Notice(s, pk, 100), Notice(t, pk, 50)];
    assert us[..1] == [us[0]] && us[..1][..0] == [];
    assert Slots(us[..0]) == [] && Slots(us[..1]) == [s];
    NewSlotIsInOrder(us[..0], us[0], cap);
    NewSlotIsInOrder(us[..1], us[1], cap);
    assert [Notice(s, pk, 100)][0].seqNo > 50;
  }
}
