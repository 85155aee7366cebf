/**
  What the client makes of each item of its stream, in terms of the item itself:
  what is a heartbeat, what is an update and what it says, what ends the loop.
 */
module Decoding {
  import opened Wrappers
  import P = Protocol
  import M = Meaning
  import T = ClientTypes
  import C = Consumer

  /** The client's update says what a full message says, field by field. */
  predicate SaysFull(u: T.Update, a: P.AccountUpdate) {
    && u.FullUpdate?
    && u.account.pubkey == a.pubkey && u.account.owner == a.owner && u.account.data == a.data
    && u.account.txSignature == a.txSignature && u.account.slot == a.slot && u.account.lamports == a.lamports
    && u.account.rentEpoch == a.rentEpoch && u.account.seqNo == a.seqNo
    && u.account.replicaVersion == a.replicaVersion && u.account.isExecutable == a.isExecutable
    && u.account.isStartup == a.isStartup
  }

  /** The client's update says what a partial message says. */
  predicate SaysPartial(u: T.Update, p: P.PartialAccountUpdate) {
    && u.PartialUpdate?
    && u.part.pubkey == p.pubkey && u.part.txSignature == p.txSignature && u.part.slot == p.slot
    && u.part.seqNo == p.seqNo && u.part.isStartup == p.isStartup
  }

  predicate IsHeartbeat(item: T.StreamItem) { item == T.Item(P.PartialMsg(Some(P.Hb))) }

  predicate CarriesPartial(item: T.StreamItem) {
    item.Item? && item.msg.PartialMsg? && item.msg.payload.Some? && item.msg.payload.value.Update?
  }

  predicate CarriesFull(item: T.StreamItem) {
    item.Item? && item.msg.FullMsg? && item.msg.update.accountUpdate.Some?
  }

  /** A partial stream: heartbeats and nothing else are beats; an update with a
      32-byte key is data that says what it says; anything else ends the loop. */
  lemma PartialItems(cfg: C.Config, item: T.StreamItem)
    requires cfg.partials
    ensures C.Decode(cfg, item).Beat? <==> IsHeartbeat(item)
    ensures C.Decode(cfg, item).Data? <==> CarriesPartial(item) && |item.msg.payload.value.update.pubkey| == 32
    ensures C.Decode(cfg, item).Data? ==> SaysPartial(C.Decode(cfg, item).update, item.msg.payload.value.update)
    ensures C.Decode(cfg, item) == T.Fail(T.StreamClosed) <==> item == T.End
    ensures C.Decode(cfg, item) == T.Fail(T.GrpcError) <==>
      item == T.TransportError || item == T.Item(P.BrokenConnection)
  {
  }

  /** A full stream: there are no beats, and an update with 32-byte keys is data
      that says what it says. */
  lemma FullItems(cfg: C.Config, item: T.StreamItem)
    requires !cfg.partials
    ensures !C.Decode(cfg, item).Beat?
    ensures C.Decode(cfg, item).Data? <==>
      && CarriesFull(item) && |item.msg.update.accountUpdate.value.pubkey| == 32
      && |item.msg.update.accountUpdate.value.owner| == 32
    ensures C.Decode(cfg, item).Data? ==> SaysFull(C.Decode(cfg, item).update, item.msg.update.accountUpdate.value)
    ensures C.Decode(cfg, item) == T.Fail(T.StreamClosed) <==> item == T.End
    ensures C.Decode(cfg, item) == T.Fail(T.GrpcError) <==>
      item == T.TransportError || item == T.Item(P.BrokenConnection)
  {
  }

  lemma BeatIff(cfg: C.Config, item: T.StreamItem)
    ensures C.Decode(cfg, item).Beat? <==> cfg.partials && IsHeartbeat(item)
  {
    hide C.Decode;
    if cfg.partials {
      PartialItems(cfg, item);
    } else {
      FullItems(cfg, item);
    }
  }

  /** The five things that both kinds of update say of an account. */
  predicate SameNews(a: T.AccountUpdate, b: T.PartialAccountUpdate) {
    && a.pubkey == b.pubkey && a.slot == b.slot && a.seqNo == b.seqNo
    && a.txSignature == b.txSignature && a.isStartup == b.isStartup
  }

  /** One account update reaches a client of full updates and a client of
      partial updates as the same news. */
  lemma FullAndPartialAgree(full: C.Config, part: C.Config, skip: bool, t: P.TimestampedAccountUpdate, m: P.Msg)
    requires !full.partials && part.partials && t.accountUpdate.Some?
    requires |t.accountUpdate.value.pubkey| == 32 && |t.accountUpdate.value.owner| == 32
    requires P.Offer(P.Partials(skip), P.AccountEvent(t)) == Some(m)
    ensures C.Decode(full, T.Item(P.FullMsg(t))).Data? && C.Decode(part, T.Item(m)).Data?
    ensures C.Decode(full, T.Item(P.FullMsg(t))).update.FullUpdate? && C.Decode(part, T.Item(m)).update.PartialUpdate?
    ensures SameNews(C.Decode(full, T.Item(P.FullMsg(t))).update.account, C.Decode(part, T.Item(m)).update.part)
  {
    hide C.Decode, P.Offer;
    M.OfferMeans(P.Partials(skip), P.AccountEvent(t));
    FullItems(full, T.Item(P.FullMsg(t)));
    PartialItems(part, T.Item(m));
  }

  /** Renumbering replaces the sequence and nothing else. */
  lemma SetSeqChangesSequence(u: T.Update, n: nat)
    ensures u.FullUpdate? ==> u.SetSeq(n).FullUpdate? && u.SetSeq(n).account.seqNo == n
    ensures u.FullUpdate? ==> u.SetSeq(n).account.(seqNo := u.account.seqNo) == u.account
    ensures u.PartialUpdate? ==> u.SetSeq(n).PartialUpdate? && u.SetSeq(n).part.seqNo == n
    ensures u.PartialUpdate? ==> u.SetSeq(n).part.(seqNo := u.part.seqNo) == u.part
  {
  }

  /** The ordering logic sees an update's own slot, key and sequence. */
  lemma NoticeMeans(u: T.Update)
    ensures u.FullUpdate? ==>
      u.Notice().slot == u.account.slot && u.Notice().pubkey == u.account.pubkey && u.Notice().seqNo == u.account.seqNo
    ensures u.PartialUpdate? ==>
      u.Notice().slot == u.part.slot && u.Notice().pubkey == u.part.pubkey && u.Notice().seqNo == u.part.seqNo
  {
  }
}
