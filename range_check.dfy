/** `check_value`: the inclusive range test applied to scalars and tuples. */
module RangeCheck {

  /** The two shapes `check_value` accepts: a plain number or a list/tuple. */
  datatype Value = Scalar(x: real) | Items(xs: seq<real>)

  predicate Within(x: real, lo: real, hi: real) {
    lo <= x <= hi
  }

  /** The loop over a list: false at the first element outside the range. */
  predicate ItemsWithin(xs: seq<real>, lo: real, hi: real)
    decreases |xs|
  {
    if xs == [] then true
    else if !Within(xs[0], lo, hi) then false
    else ItemsWithin(xs[1..], lo, hi)
  }

  /** `check_value(value, value_range=(0,1))`. */
  predicate CheckValue(v: Value, lo: real := 0.0, hi: real := 1.0)
  {
    match v
    case Scalar(x) => Within(x, lo, hi)
    case Items(xs) => ItemsWithin(xs, lo, hi)
  }

  /** A scalar, or every element of a sequence, lies in [lo, hi]; both bounds count. */
  lemma {:induction false} CheckValueIff(v: Value, lo: real, hi: real)
    ensures v.Scalar? ==> (CheckValue(v, lo, hi) <==> lo <= v.x <= hi)
    ensures v.Items? ==> (CheckValue(v, lo, hi) <==> forall i :: 0 <= i < |v.xs| ==> lo <= v.xs[i] <= hi)
  {
    if v.Items? {
      ItemsWithinIff(v.xs, lo, hi);
    }
  }

  lemma {:induction false} ItemsWithinIff(xs: seq<real>, lo: real, hi: real)
    ensures ItemsWithin(xs, lo, hi) <==> forall i :: 0 <= i < |xs| ==> lo <= xs[i] <= hi
    decreases |xs|
  {
    if xs != [] {
      ItemsWithinIff(xs[1..], lo, hi);
      assert forall i :: 1 <= i < |xs| ==> xs[i] == xs[1..][i - 1];
    }
  }

  /** The default range (0, 1) accepts both of its bounds and nothing outside them. */
  lemma {:induction false} DefaultRangeBounds(x: real)
    ensures CheckValue(Scalar(0.0)) && CheckValue(Scalar(1.0))
    ensures CheckValue(Scalar(x)) <==> 0.0 <= x <= 1.0
    ensures CheckValue(Items([0.0, 1.0]))
  {
  }
}
