/** Collapsing several signals for one pair of wallets to the strongest, before clustering. */
module GraphMerge {
  import opened Numeric
  import opened Graph

  /** The unordered pair a relationship is about. */
  function PairOf(r: Relationship): set<Wallet> { {r.walletA, r.walletB} }

  predicate SamePair(r: Relationship, q: Relationship) { PairOf(r) == PairOf(q) }

  /** r is the first among the strongest relationships of its pair. */
  ghost predicate Strongest(rels: seq<Relationship>, r: Relationship) {
    exists k :: 0 <= k < |rels| && rels[k] == r && IsStrongest(rels, k)
  }

  predicate IsStrongest(rels: seq<Relationship>, k: nat)
    requires k < |rels|
  {
    forall j :: 0 <= j < |rels| && SamePair(rels[j], rels[k]) ==>
      rels[j].strength <= rels[k].strength && (j < k ==> rels[j].strength < rels[k].strength)
  }

  /** One relationship per pair, the strongest. */
  ghost predicate MergeOf(rels: seq<Relationship>, out: seq<Relationship>) {
    && (forall i {:trigger Strongest(rels, out[i])} :: 0 <= i < |out| ==> Strongest(rels, out[i]))
    && (forall i, j {:trigger SamePair(out[i], out[j])} :: 0 <= i < j < |out| ==> !SamePair(out[i], out[j]))
    && (forall k {:trigger Represented(out, rels[k])} :: 0 <= k < |rels| ==> Represented(out, rels[k]))
  }

  ghost predicate Represented(out: seq<Relationship>, r: Relationship) {
    exists i :: 0 <= i < |out| && SamePair(out[i], r)
  }

  type Best = map<set<Wallet>, Relationship>

  ghost predicate BestOf(rels: seq<Relationship>, best: Best) {
    && (forall p :: p in best ==> PairOf(best[p]) == p && Strongest(rels, best[p]))
    && (forall k :: 0 <= k < |rels| ==> PairOf(rels[k]) in best)
  }

  lemma StrongestExtends(rels: seq<Relationship>, q: Relationship, r: Relationship)
    requires Strongest(rels, q)
    requires SamePair(r, q) ==> r.strength <= q.strength
    ensures Strongest(rels + [r], q)
  {
    var k :| 0 <= k < |rels| && rels[k] == q && IsStrongest(rels, k);
    assert (rels + [r])[k] == q && IsStrongest(rels + [r], k);
  }

  lemma BestGrows(rels: seq<Relationship>, best: Best, r: Relationship)
    requires BestOf(rels, best)
    ensures var p := PairOf(r);
            BestOf(rels + [r], if p !in best || r.strength > best[p].strength then best[p := r] else best)
  {
    var more, p := rels + [r], PairOf(r);
    var best' := if p !in best || r.strength > best[p].strength then best[p := r] else best;
    assert more[|rels|] == r;
    if p !in best || r.strength > best[p].strength {
      if p in best {
        var k :| 0 <= k < |rels| && rels[k] == best[p] && IsStrongest(rels, k);
        assert forall j :: 0 <= j < |rels| && SamePair(rels[j], r) ==> SamePair(rels[j], rels[k]);
      }
      assert IsStrongest(more, |rels|);
    }
    forall q | q in best' ensures PairOf(best'[q]) == q && Strongest(more, best'[q]) {
      if q != p || best' == best { StrongestExtends(rels, best[q], r); }
    }
  }

  /** The values of the best-of dictionary, in key order, are the merge. */
  lemma ValuesMerge(rels: seq<Relationship>, best: Best, order: seq<set<Wallet>>, out: seq<Relationship>)
    requires BestOf(rels, best) && forall p :: p in best <==> p in order
    requires forall i, j :: 0 <= i < j < |order| ==> order[i] != order[j]
    requires |out| == |order| && forall i :: 0 <= i < |order| ==> out[i] == best[order[i]]
    ensures MergeOf(rels, out)
  {
    forall i | 0 <= i < |out| ensures PairOf(out[i]) == order[i] && Strongest(rels, out[i]) {
      assert order[i] in best;
    }
    forall k | 0 <= k < |rels| ensures Represented(out, rels[k]) {
      assert PairOf(rels[k]) in order;
      var i :| 0 <= i < |order| && order[i] == PairOf(rels[k]);
      assert SamePair(out[i], rels[k]);
    }
  }

  method Merge(rels: seq<Relationship>) returns (out: seq<Relationship>)
    ensures MergeOf(rels, out)
  {
    var best: Best := map[];
    var order: seq<set<Wallet>> := [];
    for k := 0 to |rels|
      invariant BestOf(rels[..k], best)
      invariant forall p :: p in best <==> p in order
      invariant forall i, j :: 0 <= i < j < |order| ==> order[i] != order[j]
    {
      var rel := rels[k];
      var p := PairOf(rel);
      BestGrows(rels[..k], best, rel);
      assert rels[..k + 1] == rels[..k] + [rel];
      if p !in best {
        best, order := best[p := rel], order + [p];
      } else if rel.strength > best[p].strength {
        best := best[p := rel];
      }
    }
    assert rels[..|rels|] == rels;
    out := Values(best, order);
    ValuesMerge(rels, best, order, out);
  }

  /** The values of a dictionary, in key order. */
  method Values(best: Best, order: seq<set<Wallet>>) returns (out: seq<Relationship>)
    requires forall i :: 0 <= i < |order| ==> order[i] in best
    ensures |out| == |order| && forall i :: 0 <= i < |order| ==> out[i] == best[order[i]]
  {
    out := [];
    for i := 0 to |order|
      invariant |out| == i && forall j :: 0 <= j < i ==> out[j] == best[order[j]]
    {
      out := out + [best[order[i]]];
    }
  }

  lemma JoinsIsPair(r: Relationship, q: Relationship, x: Wallet, y: Wallet)
    requires SamePair(r, q) && Joins(r, x, y)
    ensures Joins(q, x, y)
  {
    assert r.walletA in PairOf(q) && r.walletB in PairOf(q);
    assert q.walletA in PairOf(r) && q.walletB in PairOf(r);
  }

  lemma EdgeSurvives(rels: seq<Relationship>, out: seq<Relationship>, t: real, x: Wallet, y: Wallet)
    requires MergeOf(rels, out) && Edge(rels, t, x, y)
    ensures Edge(out, t, x, y)
  {
    var k :| 0 <= k < |rels| && rels[k].strength >= t && Joins(rels[k], x, y);
    assert Represented(out, rels[k]);
    var i :| 0 <= i < |out| && SamePair(out[i], rels[k]);
    assert Strongest(rels, out[i]);
    var m :| 0 <= m < |rels| && rels[m] == out[i] && IsStrongest(rels, m);
    JoinsIsPair(rels[k], out[i], x, y);
    assert SamePair(rels[k], rels[m]);
    assert out[i].strength >= t;
  }

  lemma EdgeOriginates(rels: seq<Relationship>, out: seq<Relationship>, t: real, x: Wallet, y: Wallet)
    requires MergeOf(rels, out) && Edge(out, t, x, y)
    ensures Edge(rels, t, x, y)
  {
    var i :| 0 <= i < |out| && out[i].strength >= t && Joins(out[i], x, y);
    assert Strongest(rels, out[i]);
    var m :| 0 <= m < |rels| && rels[m] == out[i] && IsStrongest(rels, m);
  }

  lemma MergeKeepsLinks(rels: seq<Relationship>, out: seq<Relationship>, t: real, x: Wallet, y: Wallet)
    requires MergeOf(rels, out)
    ensures Linked(rels, t, x, y) <==> Linked(out, t, x, y)
  {
    if Linked(rels, t, x, y) {
      var p :| Path(rels, t, p) && p[0] == x && p[|p| - 1] == y;
      forall i | 0 <= i < |p| - 1 ensures Edge(out, t, p[i], p[i + 1]) {
        EdgeSurvives(rels, out, t, p[i], p[i + 1]);
      }
      assert Path(out, t, p);
    }
    if Linked(out, t, x, y) {
      var p :| Path(out, t, p) && p[0] == x && p[|p| - 1] == y;
      forall i | 0 <= i < |p| - 1 ensures Edge(rels, t, p[i], p[i + 1]) {
        EdgeOriginates(rels, out, t, p[i], p[i + 1]);
      }
      assert Path(rels, t, p);
    }
  }

  /** Two clusterings of the same relationships hold the same clusters. */
  lemma ClustersAreUnique(rels: seq<Relationship>, t: real, xs: seq<set<Wallet>>, ys: seq<set<Wallet>>, c: set<Wallet>)
    requires Components(rels, t, xs) && Components(rels, t, ys) && c in xs
    ensures c in ys
  {
    var i :| 0 <= i < |xs| && xs[i] == c;
    var x :| x in c;
    assert c != {x};
    var y :| y in c && y != x;
    assert Linked(rels, t, x, y);
    var j :| 0 <= j < |ys| && x in ys[j];
    forall z ensures z in c <==> z in ys[j] {
      assert z in xs[i] <==> Linked(rels, t, x, z);
      assert z in ys[j] <==> Linked(rels, t, x, z);
    }
    assert ys[j] == c;
  }

  /** Merging first changes no cluster, at any threshold. */
  lemma MergeKeepsClusters(rels: seq<Relationship>, out: seq<Relationship>, t: real,
                           xs: seq<set<Wallet>>, ys: seq<set<Wallet>>, c: set<Wallet>)
    requires MergeOf(rels, out) && Components(rels, t, xs) && Components(out, t, ys)
    ensures c in xs <==> c in ys
  {
    forall x, y ensures Linked(rels, t, x, y) <==> Linked(out, t, x, y) {
      MergeKeepsLinks(rels, out, t, x, y);
    }
    assert Components(rels, t, ys);
    if c in xs { ClustersAreUnique(rels, t, xs, ys, c); }
    if c in ys { ClustersAreUnique(rels, t, ys, xs, c); }
  }

  // ---------------------------------------------------------------- risk share of a cluster

  /** 1 / size, rounded to four decimals; a wallet alone keeps its whole budget. */
  function ClusterRiskMultiplier(size: nat): real {
    if size <= 1 then 1.0 else RoundHalfEven(1.0 / size as real * 10000.0) as real / 10000.0
  }

  lemma ScaledError(n: real, share: real, m: real, unit: real)
    requires n > 0.0 && n * share == 1.0 && -unit <= m - share <= unit
    ensures -(n * unit) <= n * m - 1.0 <= n * unit
  {
    MulMono(n, m - share, unit);
    MulMono(n, share - m, unit);
    assert n * (m - share) == n * m - n * share;
    assert n * (share - m) == n * share - n * m;
  }

  /** Together the wallets of a cluster use one wallet's budget, up to the rounding of each share. */
  lemma ClusterSharesOneBudget(size: nat)
    requires size >= 1
    ensures var used := size as real * ClusterRiskMultiplier(size);
            -(size as real * 0.00005) <= used - 1.0 <= size as real * 0.00005
  {
    var n := size as real;
    var share := 1.0 / n;
    assert -0.5 <= RoundHalfEven(share * 10000.0) as real - share * 10000.0 <= 0.5;
    assert n * share == 1.0;
    ScaledError(n, share, ClusterRiskMultiplier(size), 0.00005);
  }

  lemma WholeShare(size: nat, k: nat)
    requires size >= 1 && size * k == 10000
    ensures RoundHalfEven(1.0 / size as real * 10000.0) == k
  {
    var n := size as real;
    Quotient(1.0, n);
    assert n * k as real == 10000.0;
    MulCancel(1.0 / n * 10000.0, k as real, n);
  }

  /** The shares of a cluster add up to exactly one budget just when its size divides 10000. */
  lemma SharesExactlyWhen(size: nat)
    requires size >= 2
    ensures size as real * ClusterRiskMultiplier(size) == 1.0 <==> 10000 % size == 0
  {
    var k := RoundHalfEven(1.0 / size as real * 10000.0);
    assert size as real * ClusterRiskMultiplier(size) == (size * k) as real / 10000.0;
    if 10000 % size == 0 {
      var q := 10000 / size;
      assert size * q == 10000;
      WholeShare(size, q);
    }
    if size * k == 10000 { Divides(size, k); }
  }

  lemma Divides(size: nat, k: int)
    requires size > 0 && size * k == 10000
    ensures 10000 % size == 0
  {
    var q, r := 10000 / size, 10000 % size;
    assert size * (k - q) == r;
    if k > q { MulAtLeast(size, k - q); } else if k < q { MulAtLeast(size, q - k); }
  }

  lemma MulAtLeast(n: nat, m: int)
    requires m >= 1
    ensures n * m >= n
  {
  }

  /** Three wallets share 0.9999 of it, seven share 1.0003. */
  lemma ThirdsFallShort()
    ensures 3.0 * ClusterRiskMultiplier(3) == 0.9999 && 7.0 * ClusterRiskMultiplier(7) == 1.0003
  {
    assert RoundHalfEven(1.0 / 3.0 * 10000.0) == 3333 && RoundHalfEven(1.0 / 7.0 * 10000.0) == 1429;
  }
}
