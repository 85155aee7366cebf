/** The event loop's seven uuid-keyed tables, one for each kind of subscription. */
module SevenTables {
  import opened Protocol

  datatype SevenTables<T> = SevenTables(
    accounts: map<Uuid, T>, programs: map<Uuid, T>, partials: map<Uuid, T>, slots: map<Uuid, T>,
    entries: map<Uuid, T>, transactions: map<Uuid, T>, blocks: map<Uuid, T>)
  {
    function At(k: Kind): map<Uuid, T> {
      match k
      case KAccounts => accounts
      case KPrograms => programs
      case KPartials => partials
      case KSlots => slots
      case KEntries => entries
      case KTransactions => transactions
      case KBlocks => blocks
    }

    function With(k: Kind, t: map<Uuid, T>): (u: SevenTables<T>)
      ensures forall j :: u.At(j) == if j == k then t else At(j)
    {
      match k
      case KAccounts => this.(accounts := t)
      case KPrograms => this.(programs := t)
      case KPartials => this.(partials := t)
      case KSlots => this.(slots := t)
      case KEntries => this.(entries := t)
      case KTransactions => this.(transactions := t)
      case KBlocks => this.(blocks := t)
    }

    /** Drops one list of ids from every table the event was fanned out over. */
    function DropFrom(e: Event, ids: set<Uuid>): (u: SevenTables<T>)
      ensures forall k :: u.At(k) == if Targets(e, k) then At(k) - ids else At(k)
    {
      match e
      case Heartbeat => this.(partials := partials - ids)
      case AccountEvent(_) =>
        this.(accounts := accounts - ids, partials := partials - ids, programs := programs - ids)
      case SlotEvent(_) => this.(slots := slots - ids)
      case EntryEvent(_) => this.(entries := entries - ids)
      case TransactionEvent(_) => this.(transactions := transactions - ids)
      case BlockEvent(_) => this.(blocks := blocks - ids)
    }
  }

  lemma SameTables<T>(t: SevenTables<T>, u: SevenTables<T>)
    requires forall k :: t.At(k) == u.At(k)
    ensures t == u
  {
    assert t.At(KAccounts) == u.At(KAccounts) && t.At(KPrograms) == u.At(KPrograms);
    assert t.At(KPartials) == u.At(KPartials) && t.At(KSlots) == u.At(KSlots);
    assert t.At(KEntries) == u.At(KEntries) && t.At(KTransactions) == u.At(KTransactions);
    assert t.At(KBlocks) == u.At(KBlocks);
  }
}
