/**
  Broker and consumer together: whatever interleaving the server goes through,
  a client reading its stream never meets a message it cannot decode.
 */
module EndToEnd {
  import opened Wrappers
  import P = Protocol
  import B = Broker
  import D = Delivery
  import H = HighWater
  import T = ClientTypes
  import C = Consumer
  import W = WriteSeqs

  /** Everything a client has read fits its request. */
  lemma {:induction false} ReceivedFits(cfg: B.Config, steps: seq<B.Step>, id: P.Uuid, m: P.Msg)
    requires m in D.Received(B.Init(cfg), steps, id)
    ensures var w := B.Exec(B.Init(cfg), steps);
      id in w.streams && B.Fits(w.streams[id].filter, m, w.highest)
  {
    hide B.Next, B.Fits;
    var w, n := B.Init(cfg), |steps| - 1;
    var v, s := B.Exec(w, steps[..n]), steps[n];
    if m in D.Received(w, steps[..n], id) {
      ReceivedFits(cfg, steps[..n], id, m);
    } else {
      B.ReachableInv(cfg, steps[..n]);
      ReadFits(v, s, id, m);
    }
    H.FilterKeptStep(v, s, id);
    H.RaiseStep(v, s);
    FitsLater(v.streams[id].filter, m, v.highest, B.Next(v, s).highest);
  }

  lemma ReadFits(w: B.World, s: B.Step, id: P.Uuid, m: P.Msg)
    requires B.Inv(w) && m in D.ReceivedAt(w, s, id)
    ensures id in w.streams && B.Fits(w.streams[id].filter, m, w.highest)
  {
    hide B.Fits;
    assert B.AllFit(w.streams[id].filter, w.bufs[id].queue, w.highest);
  }

  lemma FitsLater(f: P.Filter, m: P.Msg, low: nat, high: nat)
    requires B.Fits(f, m, low) && low <= high
    ensures B.Fits(f, m, high)
  {
  }

  /** The stream a loop reads: account or program updates for one, partial
      updates for the other. */
  predicate Reads(partials: bool, f: P.Filter) {
    if partials then f.Partials? else f.Accounts? || f.Programs?
  }

  lemma FittingDecodes(cfg: C.Config, f: P.Filter, m: P.Msg, highest: nat)
    requires Reads(cfg.partials, f) && B.Fits(f, m, highest)
    ensures !C.Decode(cfg, T.Item(m)).Fail?
    ensures C.Decode(cfg, T.Item(m)).Beat? <==> m == P.PartialMsg(Some(P.Hb))
  {
  }

  /** Every item the loop sees was read from the stream of a subscription that
      matches the loop, in some run of the server. */
  ghost predicate ServedBy(cfg: C.Config, inputs: seq<C.Input>, server: B.Config, steps: seq<B.Step>, id: P.Uuid) {
    var w := B.Exec(B.Init(server), steps);
    && id in w.streams && Reads(cfg.partials, w.streams[id].filter)
    && forall i :: 0 <= i < |inputs| && inputs[i].Message? && inputs[i].item.Item? ==>
         inputs[i].item.msg in D.Received(B.Init(server), steps, id)
  }

  /** No unwrap fails, no unreachable arm is reached and no error status arrives:
      the loop can only end by its exit flag, the end or a transport error of
      the stream, its receiver, its gates, its order check or its watchdog. */
  lemma {:induction false} NoDecodeFailure(cfg: C.Config, inputs: seq<C.Input>, server: B.Config,
                                           steps: seq<B.Step>, id: P.Uuid)
    requires cfg.cap > 0 && ServedBy(cfg, inputs, server, steps, id)
    ensures C.Run(cfg, inputs).outcome != C.Failed(T.Panic)
    ensures C.Run(cfg, inputs).outcome == C.Failed(T.GrpcError) ==>
      exists i :: 0 <= i < |inputs| && inputs[i].Message? && inputs[i].item == T.TransportError
  {
    hide C.Decode, B.Fits, C.Process;
    if inputs != [] {
      var n := |inputs| - 1;
      NoDecodeFailure(cfg, inputs[..n], server, steps, id);
      var input := inputs[n];
      if input.Message? && input.item.Item? {
        ReceivedFits(server, steps, id, input.item.msg);
        var w := B.Exec(B.Init(server), steps);
        FittingDecodes(cfg, w.streams[id].filter, input.item.msg, w.highest);
      }
      if C.Run(cfg, inputs[..n]).outcome.Running? {
        HandleFails(cfg, C.Run(cfg, inputs[..n]), input);
      }
    }
  }

  lemma HandleFails(cfg: C.Config, st: C.LoopState, input: C.Input)
    requires cfg.cap > 0 && st.outcome.Running?
    requires input.Message? && input.item.Item? ==> !C.Decode(cfg, input.item).Fail?
    ensures C.Turn(cfg, st, input).outcome != C.Failed(T.Panic)
    ensures C.Turn(cfg, st, input).outcome == C.Failed(T.GrpcError) ==> input.Message? && input.item == T.TransportError
  {
    hide W.Account;
  }
}
