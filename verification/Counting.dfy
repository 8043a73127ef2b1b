/** Sums over finite maps and sizes of sets that are images of each other. */
module Counting {
  /** The sum of the values of `m`. */
  ghost function Sum(m: map<nat, nat>): nat
    decreases |m|
  {
    if m == map[] then 0
    else
      var k :| k in m;
      m[k] + Sum(m - {k})
  }

  lemma {:induction false} SumRemove(m: map<nat, nat>, k: nat)
    requires k in m
    ensures Sum(m) == m[k] + Sum(m - {k})
    decreases |m|
  {
    var j :| j in m && Sum(m) == m[j] + Sum(m - {j});
    if j != k {
      SumRemove(m - {j}, k);
      SumRemove(m - {k}, j);
      assert m - {j} - {k} == m - {k} - {j};
    }
  }

  lemma SumUpdate(m: map<nat, nat>, k: nat, v: nat)
    ensures Sum(m[k := v]) == Sum(m) - (if k in m then m[k] else 0) + v
  {
    SumRemove(m[k := v], k);
    if k in m {
      SumRemove(m, k);
      assert m[k := v] - {k} == m - {k};
    } else {
      assert m[k := v] - {k} == m;
    }
  }

  /** `m` with one less at `k`, and no zero entry. */
  function Fewer(m: map<nat, nat>, k: nat): map<nat, nat>
    requires k in m && m[k] > 0
  {
    if m[k] == 1 then m - {k} else m[k := m[k] - 1]
  }

  function Value(m: map<nat, nat>, k: nat): nat {
    if k in m then m[k] else 0
  }

  lemma SumFewer(m: map<nat, nat>, k: nat)
    requires k in m && m[k] > 0
    ensures Sum(Fewer(m, k)) == Sum(m) - 1
  {
    SumRemove(m, k);
    SumUpdate(m, k, m[k] - 1);
  }

  lemma FewerValues(m: map<nat, nat>, k: nat)
    requires k in m && m[k] > 0
    ensures forall q :: Value(Fewer(m, k), q) == Value(m, q) - (if q == k then 1 else 0)
    ensures forall q <- Fewer(m, k) :: q in m && (m[q] > 0 ==> Fewer(m, k)[q] > 0)
  {
  }

  /** A one-to-one image has as many elements. */
  lemma {:induction false} ImageSize(xs: set<nat>, f: map<nat, nat>, ys: set<nat>)
    requires xs <= f.Keys
    requires forall x, x' | x in xs && x' in xs && f[x] == f[x'] :: x == x'
    requires ys == set x | x in xs :: f[x]
    ensures |ys| == |xs|
    decreases |xs|
  {
    if xs != {} {
      var x :| x in xs;
      var xs', ys' := xs - {x}, set x' | x' in xs - {x} :: f[x'];
      assert ys == ys' + {f[x]};
      assert f[x] !in ys';
      ImageSize(xs', f, ys');
    }
  }
}
