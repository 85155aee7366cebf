/**
  The event loop keeps its subscriptions in seven uuid-keyed tables. Along any
  run the seven tables are the one partial map of Broker, split by kind.
 */
module Registry {
  import opened Protocol
  import opened FanOut
  import opened Broker
  import opened SevenTables

  type Registry = SevenTables<Filter>

  const EMPTY: Registry := SevenTables(map[], map[], map[], map[], map[], map[], map[])

  function Insert(r: Registry, id: Uuid, f: Filter): Registry {
    r.With(KindOf(f), r.At(KindOf(f))[id := f])
  }

  function Remove(r: Registry, k: Kind, id: Uuid): Registry {
    r.With(k, r.At(k) - {id})
  }

  /** The tables after a turn of the loop, given the world it acts on. */
  function TurnTables(r: Registry, w: World, s: Step): Registry {
    if !Enabled(w, s) then r
    else match s
      case TurnAdded => Insert(r, w.addedQ[0].id, w.addedQ[0].filter)
      case TurnClosed => Remove(r, w.closedQ[0].kind, w.closedQ[0].id)
      case TurnAccount =>
        var e := AccountEvent(w.accountQ[0]);
        r.DropFrom(e, Failed(w.subs, w.bufs, e))
      case Turn(e) => r.DropFrom(e, Failed(w.subs, w.bufs, e))
      case _ => r
  }

  function Tables(cfg: Config, steps: seq<Step>): Registry {
    if steps == [] then EMPTY
    else var prefix := steps[..|steps| - 1];
         TurnTables(Tables(cfg, prefix), Exec(Init(cfg), prefix), steps[|steps| - 1])
  }

  /** The table holds exactly the subscriptions of kind k. */
  ghost predicate TableAgrees(t: Subs, k: Kind, subs: Subs) {
    forall id :: (id in t <==> id in subs && KindOf(subs[id]) == k) && (id in t ==> t[id] == subs[id])
  }

  ghost predicate Agrees(r: Registry, subs: Subs) {
    forall k :: TableAgrees(r.At(k), k, subs)
  }

  lemma InsertAgrees(r: Registry, subs: Subs, id: Uuid, f: Filter)
    requires Agrees(r, subs) && id !in subs
    ensures Agrees(Insert(r, id, f), subs[id := f])
  {
  }

  lemma RemoveAgrees(r: Registry, subs: Subs, c: ClosedEvent)
    requires Agrees(r, subs)
    ensures Agrees(Remove(r, c.kind, c.id), CloseSub(subs, c))
  {
  }

  /** One id list, dropped from three tables, removes each failed subscription
      from the only table that has it and nothing else. */
  lemma DropAgrees(r: Registry, subs: Subs, bufs: Bufs, e: Event)
    requires Agrees(r, subs) && HasPayload(e)
    ensures Agrees(r.DropFrom(e, Failed(subs, bufs, e)), Survivors(subs, bufs, e))
  {
    forall id | id in Failed(subs, bufs, e) ensures Targets(e, KindOf(subs[id])) {
      OfferedOnlyToTargets(subs[id], e);
    }
  }

  lemma TurnAgrees(r: Registry, w: World, s: Step)
    requires Agrees(r, w.subs) && Inv(w)
    ensures Agrees(TurnTables(r, w, s), Next(w, s).subs)
  {
    hide MessagesFit, Accepted, Bounded, UpdatesBelowMark, AddsDistinct, ClosesDistinct, ClosesKnown, InOrder;
    hide Registered, Agrees;
    if Enabled(w, s) {
      match s
      case TurnAdded =>
        assert w.addedQ[0].id !in w.subs;
        InsertAgrees(r, w.subs, w.addedQ[0].id, w.addedQ[0].filter);
      case TurnClosed => RemoveAgrees(r, w.subs, w.closedQ[0]);
      case TurnAccount => DropAgrees(r, w.subs, w.bufs, AccountEvent(w.accountQ[0]));
      case Turn(e) => DropAgrees(r, w.subs, w.bufs, e);
      case _ =>
    }
  }

  lemma {:induction false} SevenTablesAgree(cfg: Config, steps: seq<Step>)
    ensures Agrees(Tables(cfg, steps), Exec(Init(cfg), steps).subs)
  {
    if steps != [] {
      var prefix := steps[..|steps| - 1];
      SevenTablesAgree(cfg, prefix);
      ReachableInv(cfg, prefix);
      TurnAgrees(Tables(cfg, prefix), Exec(Init(cfg), prefix), steps[|steps| - 1]);
    }
  }

  lemma AgreeingTablesAreEqual(t: Subs, u: Subs, k: Kind, subs: Subs)
    requires TableAgrees(t, k, subs) && TableAgrees(u, k, subs)
    ensures t == u
  {
    assert forall id :: id in t <==> id in u;
  }

  /** The one map determines the seven tables. */
  lemma AgreeingRegistriesAreEqual(r: Registry, q: Registry, subs: Subs)
    requires Agrees(r, subs) && Agrees(q, subs)
    ensures r == q
  {
    hide TableAgrees;
    forall k ensures r.At(k) == q.At(k) {
      AgreeingTablesAreEqual(r.At(k), q.At(k), k, subs);
    }
    SameTables(r, q);
  }

  /** No uuid is ever a key of two of the seven tables. */
  lemma NoUuidInTwoTables(cfg: Config, steps: seq<Step>, j: Kind, k: Kind, id: Uuid)
    requires id in Tables(cfg, steps).At(j) && id in Tables(cfg, steps).At(k)
    ensures j == k
  {
    SevenTablesAgree(cfg, steps);
    var r, subs := Tables(cfg, steps), Exec(Init(cfg), steps).subs;
    assert TableAgrees(r.At(j), j, subs) && TableAgrees(r.At(k), k, subs);
  }
}
