/** Result and option types shared by every module of the model. */
module Prelude {

  datatype Option<+T> = None | Some(value: T) {
    function GetOr(default: T): T {
      match this
      case Some(v) => v
      case None => default
    }
  }

  /** A fallible call: the success value, or the error the original returns. */
  datatype Result<+T, +E> = Ok(value: T) | Err(error: E)

  /** Elements of `xs` that satisfy `keep`, in order (an iterator's `filter`). */
  function Filter<T>(xs: seq<T>, keep: T -> bool): seq<T> {
    if xs == [] then []
    else (if keep(xs[0]) then [xs[0]] else []) + Filter(xs[1..], keep)
  }

  /** Number of elements of `xs` that satisfy `keep`. */
  function CountIf<T>(xs: seq<T>, keep: T -> bool): nat {
    if xs == [] then 0
    else (if keep(xs[0]) then 1 else 0) + CountIf(xs[1..], keep)
  }

  /** Earliest element of `xs` that satisfies `keep` (an iterator's `find`). */
  function Find<T>(xs: seq<T>, keep: T -> bool): Option<T> {
    if xs == [] then None
    else if keep(xs[0]) then Some(xs[0])
    else Find(xs[1..], keep)
  }

  lemma FilterCons<T>(x: T, xs: seq<T>, keep: T -> bool)
    ensures Filter([x] + xs, keep) == (if keep(x) then [x] else []) + Filter(xs, keep)
  {
    assert ([x] + xs)[1..] == xs;
  }

  lemma {:induction false} FilterConcat<T>(xs: seq<T>, ys: seq<T>, keep: T -> bool)
    ensures Filter(xs + ys, keep) == Filter(xs, keep) + Filter(ys, keep)
  {
    if xs == [] {
      assert xs + ys == ys;
    } else {
      assert xs + ys == [xs[0]] + (xs[1..] + ys);
      FilterCons(xs[0], xs[1..] + ys, keep);
      FilterConcat(xs[1..], ys, keep);
    }
  }

  lemma {:induction false} CountIfConcat<T>(xs: seq<T>, ys: seq<T>, keep: T -> bool)
    ensures CountIf(xs + ys, keep) == CountIf(xs, keep) + CountIf(ys, keep)
  {
    if xs == [] {
      assert xs + ys == ys;
    } else {
      assert (xs + ys)[1..] == xs[1..] + ys;
      CountIfConcat(xs[1..], ys, keep);
    }
  }

  lemma {:induction false} FilterLength<T>(xs: seq<T>, keep: T -> bool)
    ensures |Filter(xs, keep)| == CountIf(xs, keep)
  {
    if xs != [] {
      FilterLength(xs[1..], keep);
    }
  }

  lemma {:induction false} FilterMembers<T>(xs: seq<T>, keep: T -> bool, x: T)
    ensures x in Filter(xs, keep) <==> x in xs && keep(x)
  {
    if xs != [] {
      FilterMembers(xs[1..], keep, x);
      assert xs == [xs[0]] + xs[1..];
    }
  }

  lemma {:induction false} FindWitness<T>(xs: seq<T>, keep: T -> bool)
    ensures Find(xs, keep).None? <==> forall i :: 0 <= i < |xs| ==> !keep(xs[i])
    ensures Find(xs, keep).Some? ==>
              exists i :: 0 <= i < |xs| && xs[i] == Find(xs, keep).value && keep(xs[i])
                          && forall j :: 0 <= j < i ==> !keep(xs[j])
  {
    if xs != [] {
      FindWitness(xs[1..], keep);
      if keep(xs[0]) {
        assert xs[0] == Find(xs, keep).value;
      } else if Find(xs[1..], keep).Some? {
        var i :| 0 <= i < |xs[1..]| && xs[1..][i] == Find(xs[1..], keep).value && keep(xs[1..][i])
                 && forall j :: 0 <= j < i ==> !keep(xs[1..][j]);
        assert xs[i + 1] == Find(xs, keep).value;
        forall j | 0 <= j < i + 1 ensures !keep(xs[j]) {
          if j > 0 { assert xs[j] == xs[1..][j - 1]; }
        }
      } else {
        forall i | 0 <= i < |xs| ensures !keep(xs[i]) {
          if i > 0 { assert xs[i] == xs[1..][i - 1]; }
        }
      }
      if forall i :: 0 <= i < |xs| ==> !keep(xs[i]) {
        forall i | 0 <= i < |xs[1..]| ensures !keep(xs[1..][i]) {
          assert xs[1..][i] == xs[i + 1];
        }
      }
    }
  }
}
