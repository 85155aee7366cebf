/** Conversion of the transactions found for an address, one and a list of them. */
module TransactionsByAddr {
  import opened Bytes
  import opened Lists
  import opened Wrappers
  import E = TransactionErrors

  datatype Info = Info(
    signature: Signature, err: Option<E.TransactionError>, index: U32, memo: Option<string>, blockTime: Option<int>)

  datatype ProtoInfo = ProtoInfo(
    signature: Bytes, err: Option<E.ProtoError>, index: U32, memo: Option<string>, blockTime: Option<int>)

  function Encode(t: Info): ProtoInfo {
    ProtoInfo(t.signature, if t.err.Some? then Some(E.Encode(t.err.value)) else None, t.index, t.memo, t.blockTime)
  }

  /** The error is decoded before the signature is looked at. */
  function Decode(p: ProtoInfo): Result<Info, E.DecodeError> {
    var err :=
      if p.err.None? then Ok(None)
      else match E.Decode(p.err.value)
        case Ok(e) => Ok(Some(e))
        case Err(e) => Err(e);
    var signature := SignatureFrom(p.signature);
    if err.Err? then Err(err.error)
    else if signature.None? then Err(E.InvalidSignature)
    else Ok(Info(signature.value, err.value, p.index, p.memo, p.blockTime))
  }

  function DecodeAll(ps: seq<ProtoInfo>): Result<seq<Info>, E.DecodeError> { Collect(Decode, ps) }

  predicate Decodes(p: ProtoInfo) {
    |p.signature| == 64 && (p.err.Some? ==> E.Decodes(p.err.value))
  }

  function Blank(t: Info): Info {
    t.(err := if t.err.Some? then Some(E.Blank(t.err.value)) else None)
  }

  lemma RoundTrip(t: Info)
    ensures Decode(Encode(t)) == Ok(Blank(t))
  {
    hide E.Decode, E.Encode, E.Blank;
    if t.err.Some? {
      E.RoundTrip(t.err.value);
    }
  }

  lemma DecodesIff(p: ProtoInfo)
    ensures Decode(p).Ok? <==> Decodes(p)
    ensures Decode(p) == Err(E.InvalidSignature) <==>
      |p.signature| != 64 && (p.err.Some? ==> E.Decodes(p.err.value))
    ensures Decode(p).Ok? ==>
      var t := Decode(p).value;
      && t.signature == p.signature && t.index == p.index && t.memo == p.memo && t.blockTime == p.blockTime
      && (t.err.Some? <==> p.err.Some?) && (t.err.Some? ==> E.Decode(p.err.value) == Ok(t.err.value))
  {
    hide E.Decodes;
    if p.err.Some? {
      E.DecodesIff(p.err.value);
      NeverInvalidSignature(p.err.value);
    }
  }

  lemma NeverInvalidSignature(p: E.ProtoError)
    ensures E.Decode(p) != Err(E.InvalidSignature)
  {
    hide E.InstructionErrorOf, E.PlainErrorOf;
  }

  lemma DecodeEncodeDecode(p: ProtoInfo)
    requires Decode(p).Ok?
    ensures Decode(Encode(Decode(p).value)) == Decode(p)
  {
    hide E.Decode, E.Encode;
    if p.err.Some? {
      E.DecodeEncodeDecode(p.err.value);
    }
  }

  /** A list decodes exactly when every element does, element by element and in
      order, and otherwise fails with the error of the first that does not. */
  lemma ListDecodesIff(ps: seq<ProtoInfo>)
    ensures DecodeAll(ps).Ok? <==> forall i :: 0 <= i < |ps| ==> Decodes(ps[i])
    ensures DecodeAll(ps).Ok? ==> |DecodeAll(ps).value| == |ps|
    ensures DecodeAll(ps).Ok? ==> forall i :: 0 <= i < |ps| ==> Decode(ps[i]) == Ok(DecodeAll(ps).value[i])
    ensures forall i :: 0 <= i < |ps| && !Decodes(ps[i]) && (forall j :: 0 <= j < i ==> Decodes(ps[j])) ==>
      Decode(ps[i]).Err? && DecodeAll(ps) == Err(Decode(ps[i]).error)
  {
    hide Decodes, Decode;
    forall i | 0 <= i < |ps| ensures Decode(ps[i]).Ok? <==> Decodes(ps[i]) {
      DecodesIff(ps[i]);
    }
    forall i | 0 <= i < |ps| && !Decodes(ps[i]) && forall j :: 0 <= j < i ==> Decodes(ps[j])
      ensures DecodeAll(ps) == Err(Decode(ps[i]).error)
    {
      CollectError(Decode, ps, i);
    }
  }

  lemma ListRoundTrip(ts: seq<Info>)
    ensures DecodeAll(Map(Encode, ts)) == Ok(Map(Blank, ts))
  {
    hide Decode, Encode, Blank;
    forall i | 0 <= i < |ts| ensures Decode(Encode(ts[i])) == Ok(Blank(ts[i])) {
      RoundTrip(ts[i]);
    }
    CollectUndoesMap(Decode, Encode, Blank, ts);
  }
}
