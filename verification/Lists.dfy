/** map/collect over lists, for conversions that cannot fail and for those that can. */
module Lists {
  import opened Wrappers

  function Map<A, B>(f: A -> B, xs: seq<A>): (r: seq<B>)
    ensures |r| == |xs|
    ensures forall i :: 0 <= i < |xs| ==> r[i] == f(xs[i])
  {
    seq(|xs|, i requires 0 <= i < |xs| => f(xs[i]))
  }

  /** Collecting results stops at the first error and returns it. */
  function Collect<A, B, E>(f: A -> Result<B, E>, xs: seq<A>): (r: Result<seq<B>, E>)
    ensures r.Ok? <==> forall i :: 0 <= i < |xs| ==> f(xs[i]).Ok?
    ensures r.Ok? ==> |r.value| == |xs|
    ensures r.Ok? ==> forall i :: 0 <= i < |xs| ==> f(xs[i]) == Ok(r.value[i])
    ensures r.Err? ==> exists i :: IsFirstError(f, xs, i) && f(xs[i]) == Err(r.error)
  {
    if xs == [] then Ok([])
    else match f(xs[0])
      case Err(e) =>
        assert IsFirstError(f, xs, 0);
        Err(e)
      case Ok(y) =>
        match Collect(f, xs[1..])
        case Err(e) =>
          assert exists i :: IsFirstError(f, xs, i) && f(xs[i]) == Err(e) by {
            var i :| IsFirstError(f, xs[1..], i) && f(xs[1..][i]) == Err(e);
            assert IsFirstError(f, xs, i + 1);
          }
          Err(e)
        case Ok(ys) =>
          assert forall i :: 0 < i < |xs| ==> xs[i] == xs[1..][i - 1];
          Ok([y] + ys)
  }

  ghost predicate IsFirstError<A, B, E>(f: A -> Result<B, E>, xs: seq<A>, i: int) {
    0 <= i < |xs| && f(xs[i]).Err? && forall j :: 0 <= j < i ==> f(xs[j]).Ok?
  }

  /** The error of a collected list is that of its first failing element. */
  lemma CollectError<A, B, E>(f: A -> Result<B, E>, xs: seq<A>, i: int)
    requires IsFirstError(f, xs, i)
    ensures Collect(f, xs) == Err(f(xs[i]).error)
  {
    assert Collect(f, xs).Err?;
    var k :| IsFirstError(f, xs, k) && f(xs[k]) == Err(Collect(f, xs).error);
    assert k == i;
  }

  lemma MapIsIdentity<A, B>(back: B -> A, there: A -> B, xs: seq<A>)
    requires forall i :: 0 <= i < |xs| ==> back(there(xs[i])) == xs[i]
    ensures Map(back, Map(there, xs)) == xs
  {
    assert forall i :: 0 <= i < |xs| ==> Map(back, Map(there, xs))[i] == xs[i];
  }

  /** Encoding every element and decoding the list gives every element's normal form. */
  lemma CollectUndoesMap<A, B, E>(back: B -> Result<A, E>, there: A -> B, normal: A -> A, xs: seq<A>)
    requires forall i :: 0 <= i < |xs| ==> back(there(xs[i])) == Ok(normal(xs[i]))
    ensures Collect(back, Map(there, xs)) == Ok(Map(normal, xs))
  {
    var encoded := Map(there, xs);
    var decoded := Collect(back, encoded);
    assert forall i :: 0 <= i < |xs| ==> back(encoded[i]).Ok?;
    assert forall i :: 0 <= i < |xs| ==> back(encoded[i]) == Ok(decoded.value[i]);
    assert decoded.value == Map(normal, xs);
  }
}
