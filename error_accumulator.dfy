/** The two running error statistics of one active-set pass: the sum of the
    absolute changes reported so far (L1) and the largest of them (L-infinity).
    `Report` is the value-level meaning of `CCDrAlgorithm::updateError`, `Zero`
    that of `resetError`; the class in module CCDr is proved against them. */
module ErrorAccumulator {
  import opened Numerics

  datatype Acc = Acc(l1: real, linf: real)

  /** The accumulators after construction and after `resetError`. */
  function Zero(): (a: Acc)
    ensures a.l1 == 0.0 && a.linf == 0.0
  {
    Acc(0.0, 0.0)
  }

  /** The invariant the accumulators keep: the maximum is non-negative and
      never exceeds the sum. */
  predicate Consistent(a: Acc) {
    0.0 <= a.linf <= a.l1
  }

  /** Folds one raw (signed) parameter change into the accumulators. */
  function Report(a: Acc, e: real): (r: Acc)
    ensures r.l1 == a.l1 + Abs(e)
    ensures r.linf == Max(a.linf, Abs(e))
    ensures Consistent(a) ==> Consistent(r)
  {
    var abse := Abs(e);
    Acc(a.l1 + abse, if abse > a.linf then abse else a.linf)
  }

  /** Reports every change of `ds`, first to last. */
  function ReportAll(a: Acc, ds: seq<real>): (r: Acc)
    decreases |ds|
  {
    if ds == [] then a else ReportAll(Report(a, ds[0]), ds[1..])
  }

  /** Reference definitions of the two norms over a sequence of changes. */
  function SumAbs(ds: seq<real>): (r: real) {
    if ds == [] then 0.0 else Abs(ds[0]) + SumAbs(ds[1..])
  }

  function MaxAbs(ds: seq<real>): (r: real) {
    if ds == [] then 0.0 else Max(Abs(ds[0]), MaxAbs(ds[1..]))
  }

  lemma {:induction false} MaxAbsBounds(ds: seq<real>)
    ensures 0.0 <= MaxAbs(ds) <= SumAbs(ds)
    ensures forall i :: 0 <= i < |ds| ==> Abs(ds[i]) <= MaxAbs(ds)
  {
    if ds != [] {
      MaxAbsBounds(ds[1..]);
      forall i | 1 <= i < |ds| ensures Abs(ds[i]) <= MaxAbs(ds) {
        assert ds[i] == ds[1..][i - 1];
      }
    }
  }

  /** After any sequence of reports the sum has grown by the sum of the absolute
      changes and the maximum is the largest of the old maximum and the absolute
      changes. */
  lemma {:induction false} ReportAllClosedForm(a: Acc, ds: seq<real>)
    requires 0.0 <= a.linf
    ensures ReportAll(a, ds) == Acc(a.l1 + SumAbs(ds), Max(a.linf, MaxAbs(ds)))
    decreases |ds|
  {
    if ds != [] {
      var b := Report(a, ds[0]);
      ReportAllClosedForm(b, ds[1..]);
      MaxAbsBounds(ds[1..]);
    }
  }

  /** Reporting keeps `0 <= linf <= l1`, however many changes are reported. */
  lemma {:induction false} ReportAllConsistent(a: Acc, ds: seq<real>)
    requires Consistent(a)
    ensures Consistent(ReportAll(a, ds))
    decreases |ds|
  {
    if ds != [] {
      ReportAllConsistent(Report(a, ds[0]), ds[1..]);
    }
  }

  /** Two reports give `l1 + |x| + |y|` and `max(linf, |x|, |y|)`, in either order. */
  lemma ReportTwice(a: Acc, x: real, y: real)
    ensures Report(Report(a, x), y) == Report(Report(a, y), x)
    ensures Report(Report(a, x), y) == Acc(a.l1 + Abs(x) + Abs(y), Max(a.linf, Max(Abs(x), Abs(y))))
  {
  }

  lemma {:induction false} SumAbsRemove(ds: seq<real>, i: nat)
    requires i < |ds|
    ensures SumAbs(ds) == Abs(ds[i]) + SumAbs(ds[..i] + ds[i + 1..])
    decreases i
  {
    if i > 0 {
      SumAbsRemove(ds[1..], i - 1);
      assert ds[1..][..i - 1] + ds[1..][i..] == (ds[..i] + ds[i + 1..])[1..];
    } else {
      assert ds[..i] + ds[i + 1..] == ds[1..];
    }
  }

  lemma MaxSwap(x: real, y: real, z: real)
    ensures Max(x, Max(y, z)) == Max(y, Max(x, z))
  {
  }

  lemma {:induction false} MaxAbsRemove(ds: seq<real>, i: nat)
    requires i < |ds|
    ensures MaxAbs(ds) == Max(Abs(ds[i]), MaxAbs(ds[..i] + ds[i + 1..]))
    decreases i
  {
    if i > 0 {
      var tail, rest := ds[1..], ds[..i] + ds[i + 1..];
      MaxAbsRemove(tail, i - 1);
      assert tail[..i - 1] + tail[i..] == rest[1..];
      var x, y, m := Abs(ds[0]), Abs(ds[i]), MaxAbs(rest[1..]);
      assert MaxAbs(tail) == Max(y, m) by { assert tail[i - 1] == ds[i]; }
      assert MaxAbs(rest) == Max(x, m) by { assert rest[0] == ds[0]; }
      MaxSwap(x, y, m);
    } else {
      assert ds[..i] + ds[i + 1..] == ds[1..];
      assert MaxAbs(ds) == Max(Abs(ds[0]), MaxAbs(ds[1..]));
    }
  }

  /** Finds where the first element of `ds` sits in its permutation `es`, and
      shows that the rest of `ds` is a permutation of `es` without it. */
  lemma FirstInPermutation(ds: seq<real>, es: seq<real>) returns (i: nat)
    requires ds != [] && multiset(ds) == multiset(es)
    ensures i < |es| && es[i] == ds[0]
    ensures multiset(ds[1..]) == multiset(es[..i] + es[i + 1..])
  {
    assert ds == [ds[0]] + ds[1..];
    assert ds[0] in multiset(es);
    i :| 0 <= i < |es| && es[i] == ds[0];
    assert es == es[..i] + [es[i]] + es[i + 1..];
    calc {
      multiset(es);
      multiset(es[..i]) + multiset([es[i]]) + multiset(es[i + 1..]);
      multiset(es[..i] + es[i + 1..]) + multiset{ds[0]};
    }
    assert multiset(ds) == multiset(ds[1..]) + multiset{ds[0]};
    assert multiset(ds[1..]) == multiset(ds) - multiset{ds[0]};
    assert multiset(es[..i] + es[i + 1..]) == multiset(es) - multiset{ds[0]};
  }

  lemma {:induction false} SumAbsPermutation(ds: seq<real>, es: seq<real>)
    requires multiset(ds) == multiset(es)
    ensures SumAbs(ds) == SumAbs(es)
    decreases |ds|
  {
    if ds == [] {
      assert es == [] by { assert |es| == |multiset(es)| == 0; }
    } else {
      var i := FirstInPermutation(ds, es);
      SumAbsPermutation(ds[1..], es[..i] + es[i + 1..]);
      SumAbsRemove(es, i);
    }
  }

  lemma {:induction false} MaxAbsPermutation(ds: seq<real>, es: seq<real>)
    requires multiset(ds) == multiset(es)
    ensures MaxAbs(ds) == MaxAbs(es)
    decreases |ds|
  {
    if ds == [] {
      assert es == [] by { assert |es| == |multiset(es)| == 0; }
    } else {
      var i := FirstInPermutation(ds, es);
      MaxAbsPermutation(ds[1..], es[..i] + es[i + 1..]);
      MaxAbsRemove(es, i);
    }
  }

  /** The final accumulators do not depend on the order in which the changes
      were reported. */
  lemma ReportAllOrderIndependent(a: Acc, ds: seq<real>, es: seq<real>)
    requires 0.0 <= a.linf
    requires multiset(ds) == multiset(es)
    ensures ReportAll(a, ds) == ReportAll(a, es)
  {
    ReportAllClosedForm(a, ds);
    ReportAllClosedForm(a, es);
    SumAbsPermutation(ds, es);
    MaxAbsPermutation(ds, es);
  }
}
