/**
  The consumer: process_update over the LRU cache, the two receive loops, and a
  functional account of a whole run of a loop.
 */
module Consumer {
  import opened Wrappers
  import opened WriteSeqs
  import opened ClientTypes

  datatype Gates = Gates(oldestWriteSlot: nat, maxRootedSlotDistance: nat)

  /** checked_sub(..).unwrap_or_default() */
  function StaleBelow(g: Gates, rooted: nat): nat {
    if rooted >= g.maxRootedSlotDistance then rooted - g.maxRootedSlotDistance else 0
  }

  predicate Fresh(u: Notice, g: Gates, rooted: nat) {
    u.slot >= g.oldestWriteSlot && u.slot >= StaleBelow(g, rooted)
  }

  /** process_update. The rooted slot is read once for the gate and once more
      for the error it may report. */
  function Process(c: Cache, u: Notice, g: Gates, rooted: nat, reported: nat, cap: nat)
    : (Cache, Result<nat, ClientError>)
    requires cap > 0
  {
    if !Fresh(u, g, rooted) then (c, Err(StaleAccountUpdate(u.slot, reported)))
    else
      var (d, n) := Account(c, u, cap);
      if n.Some? then (d, Ok(n.value))
      else (d, Err(OutOfOrderSeqAccountUpdate(u.slot, reported, u.seqNo, EntryOf(CountersAt(c, u.slot), u).globalSeq)))
  }

  // ----- the run of a receive loop

  /** Which loop, its gates, and the watchdog's allowance from its start. */
  datatype Config = Config(partials: bool, gates: Gates, expiration: nat, start: nat, cap: nat)

  /** What a loop turn meets: the exit flag raised, a tick, or a message with the
      clock and the rooted slot as read while it is handled. */
  datatype Input =
    | Exit
    | Tick(now: nat)
    | Message(item: StreamItem, at: nat, rooted: nat, reported: nat, receiverGone: bool)

  datatype Outcome = Running | Stopped | Failed(error: ClientError)

  /** accepted are the updates as received, forwarded as handed on. */
  datatype LoopState = LoopState(
    cache: Cache, lastHeartbeat: nat, latestWriteSlot: nat,
    accepted: seq<Update>, forwarded: seq<Update>, outcome: Outcome)

  function Decode(cfg: Config, item: StreamItem): Decoded {
    if cfg.partials then DecodePartial(item) else DecodeAccount(item)
  }

  function Handle(cfg: Config, st: LoopState, input: Input): LoopState
    requires cfg.cap > 0 && input.Message?
  {
    match Decode(cfg, input.item)
    case Fail(e) => st.(outcome := Failed(e))
    case Beat => st.(lastHeartbeat := input.at)
    case Data(u) =>
      var (cache, r) := Process(st.cache, u.Notice(), cfg.gates, input.rooted, input.reported, cfg.cap);
      if r.Err? then st.(cache := cache, outcome := Failed(r.error))
      else
        var latest := Max(st.latestWriteSlot, u.Notice().slot);
        if input.receiverGone then
          st.(cache := cache, latestWriteSlot := latest, outcome := Failed(ConsumerChannelDisconnected))
        else st.(cache := cache, latestWriteSlot := latest, accepted := st.accepted + [u],
                 forwarded := st.forwarded + [u.SetSeq(r.value)])
  }

  predicate HeartbeatExpired(cfg: Config, last: nat, now: nat) {
    now > last && now - last > cfg.expiration
  }

  function Turn(cfg: Config, st: LoopState, input: Input): LoopState
    requires cfg.cap > 0
  {
    if !st.outcome.Running? then st
    else match input
      case Exit => st.(outcome := Stopped)
      case Tick(now) =>
        if cfg.partials && HeartbeatExpired(cfg, st.lastHeartbeat, now) then st.(outcome := Failed(MissedHeartbeat))
        else st
      case Message(_, _, _, _, _) => Handle(cfg, st, input)
  }

  function Start(cfg: Config): LoopState {
    LoopState(EMPTY, cfg.start, 0, [], [], Running)
  }

  function Run(cfg: Config, inputs: seq<Input>): LoopState
    requires cfg.cap > 0
  {
    if inputs == [] then Start(cfg) else Turn(cfg, Run(cfg, inputs[..|inputs| - 1]), inputs[|inputs| - 1])
  }

  // ----- the loops themselves

  class AccountWriteSeqsCache {
    const capacity: nat
    var order: seq<Slot>
    var table: map<Slot, Counters>

    ghost function View(): Cache
      reads this
    {
      Cache(order, table)
    }

    ghost predicate Valid()
      reads this
    {
      capacity > 0 && TableMatchesOrder(View()) && |order| <= capacity
    }

    constructor (capacity: nat)
      requires capacity > 0
      ensures Valid() && View() == EMPTY && this.capacity == capacity
    {
      this.capacity := capacity;
      order, table := [], map[];
    }

    method GetOrInsertMut(s: Slot) returns (counters: Counters)
      requires Valid()
      modifies this
      ensures Valid() && View() == Touch(old(View()), s, capacity)
      ensures s in table && counters == table[s]
    {
      TouchKeepsTable(s, capacity, View());
      if s in table {
        order := ToFront(order, s);
      } else {
        if |order| >= capacity {
          var victim := order[|order| - 1];
          order := order[..|order| - 1];
          table := table - {victim};
        }
        order := [s] + order;
        table := table[s := map[]];
      }
      counters := table[s];
    }

    method SetCounters(s: Slot, counters: Counters)
      requires Valid() && s in table
      modifies this`table
      ensures Valid() && table == old(table)[s := counters]
    {
      table := table[s := counters];
    }
  }

  method ProcessUpdate(u: Update, cache: AccountWriteSeqsCache, g: Gates, rooted: nat, reported: nat)
    returns (v: Update, r: Result<(), ClientError>)
    requires cache.Valid()
    modifies cache
    ensures cache.Valid()
    ensures var (d, n) := Process(old(cache.View()), u.Notice(), g, rooted, reported, cache.capacity);
      && cache.View() == d
      && (n.Ok? ==> r.Ok? && v == u.SetSeq(n.value))
      && (n.Err? ==> r == Err(n.error) && v == u)
  {
    hide Touch, TableMatchesOrder;
    v := u;
    var notice := u.Notice();
    if notice.slot < g.oldestWriteSlot {
      return v, Err(StaleAccountUpdate(notice.slot, reported));
    }
    if notice.slot < (if rooted >= g.maxRootedSlotDistance then rooted - g.maxRootedSlotDistance else 0) {
      return v, Err(StaleAccountUpdate(notice.slot, reported));
    }
    var counters := cache.GetOrInsertMut(notice.slot);
    TouchKeepsTable(notice.slot, cache.capacity, old(cache.View()));
    var entry := AccountWriteSeq(notice.seqNo, 0);
    if notice.pubkey in counters {
      entry := counters[notice.pubkey];
    }
    cache.SetCounters(notice.slot, counters[notice.pubkey := entry]);
    if notice.seqNo < entry.globalSeq {
      return v, Err(OutOfOrderSeqAccountUpdate(notice.slot, reported, notice.seqNo, entry.globalSeq));
    }
    v := u.SetSeq(entry.slotSeq);
    cache.SetCounters(notice.slot, counters[notice.pubkey := entry.(slotSeq := entry.slotSeq + 1)]);
    r := Ok(());
  }

  /** consume_account_updates. */
  method ConsumeAccountUpdates(inputs: seq<Input>, g: Gates, start: nat)
    returns (forwarded: seq<Update>, outcome: Outcome)
    ensures var st := Run(Config(false, g, 0, start, 5000), inputs);
      forwarded == st.forwarded && outcome == st.outcome
  {
    hide Account, Fresh, TableMatchesOrder, StaleBelow;
    ghost var cfg := Config(false, g, 0, start, ACCOUNT_WRITE_SEQS_CACHE_SIZE);
    var cache := new AccountWriteSeqsCache(ACCOUNT_WRITE_SEQS_CACHE_SIZE);
    var latestWriteSlot := 0;
    forwarded, outcome := [], Running;
    var i := 0;
    while i < |inputs| && outcome.Running?
      invariant 0 <= i <= |inputs| && fresh(cache) && cache.Valid() && cache.capacity == cfg.cap
      invariant var st := Run(cfg, inputs[..i]);
        && forwarded == st.forwarded && outcome == st.outcome
        && (outcome.Running? ==> cache.View() == st.cache && latestWriteSlot == st.latestWriteSlot)
    {
      var input := inputs[i];
      assert inputs[..i + 1][..i] == inputs[..i];
      match input {
        case Exit => outcome := Stopped;
        case Tick(_) =>
        case Message(item, at, rooted, reported, receiverGone) =>
          match DecodeAccount(item) {
            case Fail(e) => outcome := Failed(e);
            case Beat => assert false;
            case Data(u) =>
              var v, r := ProcessUpdate(u, cache, g, rooted, reported);
              if r.Err? {
                outcome := Failed(r.error);
              } else {
                latestWriteSlot := Max(latestWriteSlot, v.Notice().slot);
                if receiverGone {
                  outcome := Failed(ConsumerChannelDisconnected);
                } else {
                  forwarded := forwarded + [v];
                }
              }
          }
      }
      i := i + 1;
    }
    StaysEnded(cfg, inputs, i);
  }

  /** consume_partial_account_updates, with its heartbeat watchdog. The clock is
      read once before the loop; the allowance is the interval times the number
      of heartbeats that may be missed. */
  method ConsumePartialAccountUpdates(inputs: seq<Input>, g: Gates, start: nat, heartbeatInterval: nat, maxMissed: nat)
    returns (forwarded: seq<Update>, outcome: Outcome)
    ensures var st := Run(Config(true, g, heartbeatInterval * maxMissed, start, 5000), inputs);
      forwarded == st.forwarded && outcome == st.outcome
  {
    hide Account, Fresh, TableMatchesOrder, StaleBelow;
    ghost var cfg := Config(true, g, heartbeatInterval * maxMissed, start, ACCOUNT_WRITE_SEQS_CACHE_SIZE);
    var cache := new AccountWriteSeqsCache(ACCOUNT_WRITE_SEQS_CACHE_SIZE);
    var latestWriteSlot := 0;
    var lastHeartbeat := start;
    var expiration := heartbeatInterval * maxMissed;
    forwarded, outcome := [], Running;
    var i := 0;
    while i < |inputs| && outcome.Running?
      invariant 0 <= i <= |inputs| && fresh(cache) && cache.Valid() && cache.capacity == cfg.cap
      invariant var st := Run(cfg, inputs[..i]);
        && forwarded == st.forwarded && outcome == st.outcome && lastHeartbeat == st.lastHeartbeat
        && (outcome.Running? ==> cache.View() == st.cache && latestWriteSlot == st.latestWriteSlot)
    {
      var input := inputs[i];
      assert inputs[..i + 1][..i] == inputs[..i];
      match input {
        case Exit => outcome := Stopped;
        case Tick(now) =>
          if now > lastHeartbeat && now - lastHeartbeat > expiration {
            outcome := Failed(MissedHeartbeat);
          }
        case Message(item, at, rooted, reported, receiverGone) =>
          match DecodePartial(item) {
            case Fail(e) => outcome := Failed(e);
            case Beat => lastHeartbeat := at;
            case Data(u) =>
              var v, r := ProcessUpdate(u, cache, g, rooted, reported);
              if r.Err? {
                outcome := Failed(r.error);
              } else {
                latestWriteSlot := Max(latestWriteSlot, v.Notice().slot);
                if receiverGone {
                  outcome := Failed(ConsumerChannelDisconnected);
                } else {
                  forwarded := forwarded + [v];
                }
              }
          }
      }
      i := i + 1;
    }
    StaysEnded(cfg, inputs, i);
  }

  lemma {:induction false} StaysEnded(cfg: Config, inputs: seq<Input>, i: nat)
    requires cfg.cap > 0 && i <= |inputs| && (i == |inputs| || !Run(cfg, inputs[..i]).outcome.Running?)
    ensures Run(cfg, inputs) == Run(cfg, inputs[..i])
  {
    if i == |inputs| {
      assert inputs[..i] == inputs;
    } else {
      var n := |inputs| - 1;
      assert inputs[..n][..i] == inputs[..i];
      StaysEnded(cfg, inputs[..n], i);
    }
  }
}
