/**
  One turn of fan-out over the registered subscriptions: what each is offered,
  which sends fail because the receiver is gone, and what is left registered.
 */
module FanOut {
  import opened Wrappers
  import opened Protocol

  type Subs = map<Uuid, Filter>
  type Bufs = map<Uuid, Buf>

  function OfferTo(subs: Subs, id: Uuid, e: Event): Option<Msg>
    requires HasPayload(e)
  {
    if id in subs then Offer(subs[id], e) else None
  }

  /** The subscriptions that are offered e on a channel whose receiver is gone. */
  function Failed(subs: Subs, bufs: Bufs, e: Event): set<Uuid>
    requires HasPayload(e)
  {
    set id | id in subs && id in bufs && OfferTo(subs, id, e).Some? && bufs[id].closed
  }

  function SendAll(subs: Subs, bufs: Bufs, e: Event): (after: Bufs)
    requires HasPayload(e)
    ensures after.Keys == bufs.Keys
  {
    map id | id in bufs :: Deliver(bufs[id], OfferTo(subs, id, e))
  }

  function Survivors(subs: Subs, bufs: Bufs, e: Event): Subs
    requires HasPayload(e)
  {
    subs - Failed(subs, bufs, e)
  }

  lemma OfferedOnlyToTargets(f: Filter, e: Event)
    requires HasPayload(e) && Offer(f, e).Some?
    ensures Targets(e, KindOf(f))
  {
  }

  /** A turn acts on the channels of registered subscriptions alone, so a loop
      that knows only part of the channels acts on the whole as on that part. */
  lemma FanOutIsLocal(subs: Subs, part: Bufs, whole: Bufs, e: Event)
    requires HasPayload(e) && subs.Keys <= part.Keys <= whole.Keys
    requires forall id :: id in part ==> part[id] == whole[id]
    ensures Survivors(subs, part, e) == Survivors(subs, whole, e)
    ensures forall id :: id in whole ==>
      SendAll(subs, whole, e)[id] == if id in part then SendAll(subs, part, e)[id] else whole[id]
  {
    assert Failed(subs, part, e) == Failed(subs, whole, e);
  }
}
