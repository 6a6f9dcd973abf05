/** Wallet clusters (src/asm/engine/graph.py): union-find with path halving over a parent
    dictionary, and the merge of several signals for one pair of wallets. */
module Graph {
  type Wallet = nat

  datatype Relationship = Relationship(walletA: Wallet, walletB: Wallet, relation: string, strength: real)

  // ---------------------------------------------------------------- what clusters mean

  predicate Joins(r: Relationship, x: Wallet, y: Wallet) {
    (r.walletA == x && r.walletB == y) || (r.walletA == y && r.walletB == x)
  }

  /** A relationship at or above the threshold between x and y. */
  ghost predicate Edge(rels: seq<Relationship>, t: real, x: Wallet, y: Wallet) {
    exists i :: 0 <= i < |rels| && rels[i].strength >= t && Joins(rels[i], x, y)
  }

  ghost predicate Path(rels: seq<Relationship>, t: real, p: seq<Wallet>) {
    p != [] && forall i :: 0 <= i < |p| - 1 ==> Edge(rels, t, p[i], p[i + 1])
  }

  /** Joined by a chain of such relationships. */
  ghost predicate Linked(rels: seq<Relationship>, t: real, x: Wallet, y: Wallet) {
    exists p :: Path(rels, t, p) && p[0] == x && p[|p| - 1] == y
  }

  lemma LinkedSelf(rels: seq<Relationship>, t: real, x: Wallet)
    ensures Linked(rels, t, x, x)
  {
    assert Path(rels, t, [x]);
  }

  lemma LinkedEdge(rels: seq<Relationship>, t: real, x: Wallet, y: Wallet)
    requires Edge(rels, t, x, y)
    ensures Linked(rels, t, x, y)
  {
    assert Path(rels, t, [x, y]);
  }

  lemma EdgeSymmetric(rels: seq<Relationship>, t: real, x: Wallet, y: Wallet)
    requires Edge(rels, t, x, y)
    ensures Edge(rels, t, y, x)
  {
    var i :| 0 <= i < |rels| && rels[i].strength >= t && Joins(rels[i], x, y);
    assert Joins(rels[i], y, x);
  }

  lemma LinkedTransitive(rels: seq<Relationship>, t: real, x: Wallet, y: Wallet, z: Wallet)
    requires Linked(rels, t, x, y) && Linked(rels, t, y, z)
    ensures Linked(rels, t, x, z)
  {
    var p :| Path(rels, t, p) && p[0] == x && p[|p| - 1] == y;
    var q :| Path(rels, t, q) && q[0] == y && q[|q| - 1] == z;
    var r := p + q[1..];
    forall i | 0 <= i < |r| - 1 ensures Edge(rels, t, r[i], r[i + 1]) {
      if i < |p| - 1 { assert Edge(rels, t, p[i], p[i + 1]); }
      else { assert Edge(rels, t, q[i - |p| + 1], q[i - |p| + 2]); }
    }
    assert Path(rels, t, r);
  }

  lemma LinkedSymmetric(rels: seq<Relationship>, t: real, x: Wallet, y: Wallet)
    requires Linked(rels, t, x, y)
    ensures Linked(rels, t, y, x)
  {
    var p :| Path(rels, t, p) && p[0] == x && p[|p| - 1] == y;
    var r := seq(|p|, i requires 0 <= i < |p| => p[|p| - 1 - i]);
    forall i | 0 <= i < |r| - 1 ensures Edge(rels, t, r[i], r[i + 1]) {
      EdgeSymmetric(rels, t, p[|p| - 2 - i], p[|p| - 1 - i]);
    }
    assert Path(rels, t, r);
  }

  lemma EdgeMonotone(rels: seq<Relationship>, more: seq<Relationship>, t: real, x: Wallet, y: Wallet)
    requires rels <= more && Edge(rels, t, x, y)
    ensures Edge(more, t, x, y)
  {
    var j :| 0 <= j < |rels| && rels[j].strength >= t && Joins(rels[j], x, y);
    assert more[j] == rels[j] && Joins(more[j], x, y);
  }

  lemma LinkedMonotone(rels: seq<Relationship>, more: seq<Relationship>, t: real, x: Wallet, y: Wallet)
    requires rels <= more && Linked(rels, t, x, y)
    ensures Linked(more, t, x, y)
  {
    var p :| Path(rels, t, p) && p[0] == x && p[|p| - 1] == y;
    forall i | 0 <= i < |p| - 1 ensures Edge(more, t, p[i], p[i + 1]) {
      EdgeMonotone(rels, more, t, p[i], p[i + 1]);
    }
    assert Path(more, t, p);
  }

  /** Exactly the connected components with more than one wallet, each once. */
  ghost predicate Components(rels: seq<Relationship>, t: real, clusters: seq<set<Wallet>>) {
    && (forall i :: 0 <= i < |clusters| ==> |clusters[i]| > 1)
    && (forall i, x, y :: 0 <= i < |clusters| && x in clusters[i] ==>
         (y in clusters[i] <==> Linked(rels, t, x, y)))
    && (forall x, y :: x != y && Linked(rels, t, x, y) ==> exists i :: 0 <= i < |clusters| && x in clusters[i])
    && (forall i, j :: 0 <= i < j < |clusters| ==> clusters[i] !! clusters[j])
  }

  // ---------------------------------------------------------------- the forest

  type Links = map<Wallet, Wallet>

  /** One wallet's pointer: it leads towards its root, which points at itself. */
  predicate NodeOk(parent: Links, root: Links, depth: map<Wallet, nat>, x: Wallet) {
    && x in parent && parent[x] in parent && x in root && root[x] in parent
    && parent[x] in root && root[parent[x]] == root[x] && parent[root[x]] == root[x]
    && root[x] in root && root[root[x]] == root[x]
    && (parent[x] == x ==> root[x] == x)
    && x in depth && parent[x] in depth && (parent[x] != x ==> depth[parent[x]] < depth[x])
  }

  ghost predicate ForestOk(parent: Links, root: Links, depth: map<Wallet, nat>) {
    && root.Keys == parent.Keys && depth.Keys == parent.Keys
    && (forall x {:trigger NodeOk(parent, root, depth, x)} :: x in parent ==> NodeOk(parent, root, depth, x))
  }

  lemma Planted(parent: Links, root: Links, depth: map<Wallet, nat>, w: Wallet)
    requires ForestOk(parent, root, depth) && w !in parent
    ensures ForestOk(parent[w := w], root[w := w], depth[w := 0])
  {
    var p, r, d := parent[w := w], root[w := w], depth[w := 0];
    forall x | x in p ensures NodeOk(p, r, d, x) {
      if x != w { assert NodeOk(parent, root, depth, x); }
    }
  }

  /** Path halving keeps every wallet's root. */
  lemma Halved(parent: Links, root: Links, depth: map<Wallet, nat>, x: Wallet)
    requires ForestOk(parent, root, depth) && x in parent && parent[x] != x
    ensures NodeOk(parent, root, depth, x) && NodeOk(parent, root, depth, parent[x])
    ensures var p := parent[x := parent[parent[x]]];
            ForestOk(p, root, depth) && depth[p[x]] < depth[x] && root[p[x]] == root[x]
  {
    assert NodeOk(parent, root, depth, x);
    assert NodeOk(parent, root, depth, parent[x]);
    assert NodeOk(parent, root, depth, parent[parent[x]]);
    var p := parent[x := parent[parent[x]]];
    forall y | y in p ensures NodeOk(p, root, depth, y) {
      assert NodeOk(parent, root, depth, y);
    }
  }

  ghost function Moved(root: Links, ra: Wallet, rb: Wallet): Links {
    map x | x in root :: if root[x] == ra then rb else root[x]
  }

  ghost function Lifted(root: Links, depth: map<Wallet, nat>, ra: Wallet, lift: nat): map<Wallet, nat>
    requires root.Keys == depth.Keys
  {
    map x | x in depth :: if root[x] == ra then depth[x] + lift else depth[x]
  }

  /** Hanging root ra under root rb moves ra's whole tree, and nothing else, to rb. */
  lemma Hung(parent: Links, root: Links, depth: map<Wallet, nat>, ra: Wallet, rb: Wallet)
    requires ForestOk(parent, root, depth) && ra in parent && rb in parent && ra != rb
    requires parent[ra] == ra && parent[rb] == rb
    ensures rb in depth && ForestOk(parent[ra := rb], Moved(root, ra, rb), Lifted(root, depth, ra, depth[rb] + 1))
  {
    assert NodeOk(parent, root, depth, ra) && NodeOk(parent, root, depth, rb);
    var p, r, d := parent[ra := rb], Moved(root, ra, rb), Lifted(root, depth, ra, depth[rb] + 1);
    forall x | x in p ensures NodeOk(p, r, d, x) {
      assert NodeOk(parent, root, depth, x);
    }
  }

  /** The keys of a dictionary, each once, in insertion order. */
  ghost predicate Lists(order: seq<Wallet>, keys: set<Wallet>) {
    && (forall x :: x in keys <==> x in order)
    && (forall i, j :: 0 <= i < j < |order| ==> order[i] != order[j])
  }

  lemma HungStill(parent: Links, root: Links, depth: map<Wallet, nat>, order: seq<Wallet>, ra: Wallet, rb: Wallet)
    returns (moved: Links, lifted: map<Wallet, nat>)
    requires ForestOk(parent, root, depth) && Lists(order, parent.Keys) && ra in parent && rb in parent && ra != rb
    requires parent[ra] == ra && parent[rb] == rb
    ensures moved == Moved(root, ra, rb) && ForestOk(parent[ra := rb], moved, lifted)
    ensures parent[ra := rb].Keys == parent.Keys
  {
    Hung(parent, root, depth, ra, rb);
    moved, lifted := Moved(root, ra, rb), Lifted(root, depth, ra, depth[rb] + 1);
  }

  ghost function Known(root: Links, w: Wallet): Links { if w in root then root else root[w := w] }

  /** The roots after an edge a-b. */
  ghost function Merged(root: Links, a: Wallet, b: Wallet): Links {
    var r := Known(Known(root, a), b);
    if r[a] == r[b] then r else Moved(r, r[a], r[b])
  }

  /** The parent dictionary; `order` is its insertion order. The ghosts say which root each
      wallet has and bound the length of its way there. */
  class Forest {
    var parent: Links
    var order: seq<Wallet>
    ghost var root: Links
    ghost var depth: map<Wallet, nat>

    ghost predicate Valid()
      reads this
    {
      ForestOk(parent, root, depth) && Lists(order, parent.Keys)
    }

    constructor ()
      ensures Valid() && parent == map[] && order == []
    {
      parent, order, root, depth := map[], [], map[], map[];
    }

    /** Adds an unknown wallet as its own root, then walks up, halving the path behind it. */
    method Find(w: Wallet) returns (r: Wallet)
      requires Valid()
      modifies this
      ensures Valid() && w in parent && root[w] == r && r in parent && parent[r] == r
      ensures parent.Keys == old(parent.Keys) + {w}
      ensures root == Known(old(root), w)
      ensures order == if old(w in parent) then old(order) else old(order) + [w]
    {
      if w !in parent {
        Planted(parent, root, depth, w);
        parent, order := parent[w := w], order + [w];
        root, depth := root[w := w], depth[w := 0];
      }
      ghost var keys, known, listed := parent.Keys, root, order;
      var x := w;
      while parent[x] != x
        invariant ForestOk(parent, root, depth) && parent.Keys == keys && root == known && order == listed
        invariant x in parent && w in root && root[x] == root[w]
        decreases depth[x]
      {
        Halved(parent, root, depth, x);
        parent := parent[x := parent[parent[x]]];
        x := parent[x];
      }
      assert NodeOk(parent, root, depth, x);
      return x;
    }

    /** Hangs one root under the other. */
    method Hang(ra: Wallet, rb: Wallet)
      requires Valid() && ra in parent && rb in parent && ra != rb && parent[ra] == ra && parent[rb] == rb
      modifies this
      ensures Valid() && parent.Keys == old(parent.Keys) && order == old(order)
      ensures root == Moved(old(root), ra, rb)
    {
      ghost var moved, lifted := HungStill(parent, root, depth, order, ra, rb);
      parent, root, depth := parent[ra := rb], moved, lifted;
    }

    method FindBoth(a: Wallet, b: Wallet) returns (ra: Wallet, rb: Wallet)
      requires Valid()
      modifies this
      ensures Valid() && parent.Keys == old(parent.Keys) + {a} + {b}
      ensures root == Known(Known(old(root), a), b)
      ensures a in root && b in root && root[a] == ra && root[b] == rb
      ensures ra in parent && rb in parent && parent[ra] == ra && parent[rb] == rb
    {
      ra := Find(a);
      rb := Find(b);
      assert NodeOk(parent, root, depth, a);
    }

    method Union(a: Wallet, b: Wallet)
      requires Valid()
      modifies this
      ensures Valid() && parent.Keys == old(parent.Keys) + {a} + {b}
      ensures root == Merged(old(root), a, b)
    {
      var ra, rb := FindBoth(a, b);
      if ra != rb { Hang(ra, rb); }
    }
  }

  // ---------------------------------------------------------------- find_clusters

  /** The forest after some relationships: it knows the wallets of the strong ones, and two
      wallets share a root exactly when strong relationships link them. */
  ghost predicate Reflects(root: Links, rels: seq<Relationship>, t: real) {
    && root.Values <= root.Keys
    && (forall x, y :: x in root && y in root && root[x] == root[y] ==> Linked(rels, t, x, y))
    && (forall i :: 0 <= i < |rels| && rels[i].strength >= t ==>
         var r := rels[i];
         r.walletA in root && r.walletB in root && root[r.walletA] == root[r.walletB])
  }

  lemma MergedCloses(root: Links, a: Wallet, b: Wallet)
    requires root.Values <= root.Keys
    ensures Merged(root, a, b).Values <= Merged(root, a, b).Keys
  {
    var known := Known(Known(root, a), b);
    forall x | x in known ensures known[x] in known {
      if x in root { assert root[x] in root.Values; }
    }
  }

  lemma MergedReflects(root: Links, rels: seq<Relationship>, t: real, r: Relationship)
    requires Reflects(root, rels, t) && r.strength >= t
    ensures Reflects(Merged(root, r.walletA, r.walletB), rels + [r], t)
  {
    var more := rels + [r];
    var a, b := r.walletA, r.walletB;
    var known := Known(Known(root, a), b);
    var after := Merged(root, a, b);
    MergedCloses(root, a, b);
    assert more[|rels|] == r && Joins(r, a, b);
    assert Edge(more, t, a, b);
    LinkedEdge(more, t, a, b);
    LinkedSymmetric(more, t, a, b);
    forall x, y | x in known && y in known && known[x] == known[y] ensures Linked(more, t, x, y) {
      assert x in root ==> root[x] in root.Values;
      assert y in root ==> root[y] in root.Values;
      if x in root && y in root { LinkedMonotone(rels, more, t, x, y); }
      else { LinkedSelf(more, t, x); }
    }
    forall x, y | x in after && y in after && after[x] == after[y] ensures Linked(more, t, x, y) {
      if known[x] != known[y] {
        if known[x] == known[a] {
          LinkedTransitive(more, t, x, a, b);
          LinkedTransitive(more, t, x, b, y);
        } else {
          LinkedTransitive(more, t, x, b, a);
          LinkedTransitive(more, t, x, a, y);
        }
      }
    }
  }

  lemma WeakReflects(root: Links, rels: seq<Relationship>, t: real, r: Relationship)
    requires Reflects(root, rels, t) && r.strength < t
    ensures Reflects(root, rels + [r], t)
  {
    forall x, y | x in root && y in root && root[x] == root[y] ensures Linked(rels + [r], t, x, y) {
      LinkedMonotone(rels, rels + [r], t, x, y);
    }
  }

  lemma {:induction false} PathSharesRoot(root: Links, rels: seq<Relationship>, t: real, p: seq<Wallet>)
    requires Reflects(root, rels, t) && Path(rels, t, p) && |p| > 1
    ensures p[0] in root && p[|p| - 1] in root && root[p[0]] == root[p[|p| - 1]]
    decreases |p|
  {
    assert Edge(rels, t, p[0], p[1]);
    if |p| > 2 {
      assert forall i :: 0 <= i < |p[1..]| - 1 ==> Edge(rels, t, p[1..][i], p[1..][i + 1]) by {
        forall i | 0 <= i < |p| - 2 ensures Edge(rels, t, p[1..][i], p[1..][i + 1]) {
          assert Edge(rels, t, p[i + 1], p[i + 2]);
        }
      }
      PathSharesRoot(root, rels, t, p[1..]);
    }
  }

  lemma LinkedSharesRoot(root: Links, rels: seq<Relationship>, t: real, x: Wallet, y: Wallet)
    requires Reflects(root, rels, t) && Linked(rels, t, x, y) && x != y
    ensures x in root && y in root && root[x] == root[y]
  {
    var p :| Path(rels, t, p) && p[0] == x && p[|p| - 1] == y;
    PathSharesRoot(root, rels, t, p);
  }

  ghost function Group(root: Links, ws: seq<Wallet>, r: Wallet): set<Wallet> {
    set x | x in ws && x in root && root[x] == r
  }

  /** The grouping of the listed wallets by root, keys in order of first appearance. */
  ghost predicate Grouped(root: Links, ws: seq<Wallet>, groups: map<Wallet, set<Wallet>>, firsts: seq<Wallet>) {
    && Lists(firsts, groups.Keys)
    && (forall r :: r in groups ==> groups[r] == Group(root, ws, r) && r in root && root[r] == r)
    && (forall x :: x in ws ==> x in root && root[x] in groups)
  }

  /** setdefault(r, set()).add(w) */
  function WithMember(groups: map<Wallet, set<Wallet>>, r: Wallet, w: Wallet): map<Wallet, set<Wallet>> {
    groups[r := (if r in groups then groups[r] else {}) + {w}]
  }

  lemma GroupGrows(root: Links, ws: seq<Wallet>, groups: map<Wallet, set<Wallet>>, firsts: seq<Wallet>, w: Wallet)
    requires Grouped(root, ws, groups, firsts) && w in root && root[w] in root && root[root[w]] == root[w]
    ensures var r := root[w];
            Grouped(root, ws + [w], WithMember(groups, r, w), if r in groups then firsts else firsts + [r])
  {
    var r := root[w];
    var groups' := WithMember(groups, r, w);
    assert r !in groups ==> Group(root, ws, r) == {};
    forall q | q in groups' ensures groups'[q] == Group(root, ws + [w], q) {
      if q == r { assert Group(root, ws + [w], q) == Group(root, ws, q) + {w}; }
      else { assert Group(root, ws + [w], q) == Group(root, ws, q); }
    }
  }

  lemma TwoMembers(c: set<Wallet>, x: Wallet, y: Wallet)
    requires x in c && y in c && x != y
    ensures |c| > 1
  {
    assert c == {x, y} + (c - {x, y});
    assert |{x, y}| == 2;
  }

  /** The groups worth reporting, in order of first appearance. */
  function Large(groups: map<Wallet, set<Wallet>>, firsts: seq<Wallet>): seq<set<Wallet>>
    requires forall r :: r in firsts ==> r in groups
  {
    if firsts == [] then []
    else
      var r := firsts[|firsts| - 1];
      Large(groups, firsts[..|firsts| - 1]) + (if |groups[r]| > 1 then [groups[r]] else [])
  }

  /** The i-th reported group belongs to a root of its own. */
  lemma {:induction false} LargeOrigin(groups: map<Wallet, set<Wallet>>, firsts: seq<Wallet>, i: nat) returns (k: nat)
    requires forall r :: r in firsts ==> r in groups
    requires i < |Large(groups, firsts)|
    ensures k < |firsts| && Large(groups, firsts)[i] == groups[firsts[k]] && |groups[firsts[k]]| > 1
    ensures |Large(groups, firsts[..k])| == i
  {
    var n := |firsts| - 1;
    if i < |Large(groups, firsts[..n])| {
      k := LargeOrigin(groups, firsts[..n], i);
      assert firsts[..n][..k] == firsts[..k];
    } else {
      k := n;
    }
  }

  lemma {:induction false} LargeHas(groups: map<Wallet, set<Wallet>>, firsts: seq<Wallet>, r: Wallet)
    requires forall q :: q in firsts ==> q in groups
    requires r in firsts && |groups[r]| > 1
    ensures groups[r] in Large(groups, firsts)
  {
    var n := |firsts| - 1;
    if r != firsts[n] { LargeHas(groups, firsts[..n], r); }
  }

  lemma LargeAreComponents(root: Links, ws: seq<Wallet>, rels: seq<Relationship>, t: real,
                           groups: map<Wallet, set<Wallet>>, firsts: seq<Wallet>)
    requires Reflects(root, rels, t) && (forall x :: x in root ==> x in ws)
    requires Grouped(root, ws, groups, firsts)
    ensures forall r :: r in firsts ==> r in groups
    ensures Components(rels, t, Large(groups, firsts))
  {
    assert forall r :: r in firsts ==> r in groups.Keys;
    var out := Large(groups, firsts);
    forall i | 0 <= i < |out| ensures |out[i]| > 1 { var _ := LargeOrigin(groups, firsts, i); }
    forall i, x, y | 0 <= i < |out| && x in out[i] ensures y in out[i] <==> Linked(rels, t, x, y) {
      var k := LargeOrigin(groups, firsts, i);
      MembersAreLinked(root, ws, rels, t, groups, firsts, firsts[k], x, y);
    }
    forall x, y | x != y && Linked(rels, t, x, y) ensures exists i :: 0 <= i < |out| && x in out[i] {
      LinkedSharesRoot(root, rels, t, x, y);
      var r := root[x];
      assert x in ws && r in groups.Keys;
      assert x in groups[r] && y in groups[r];
      TwoMembers(groups[r], x, y);
      LargeHas(groups, firsts, r);
    }
    forall i, j | 0 <= i < j < |out| ensures out[i] !! out[j] {
      var k := LargeOrigin(groups, firsts, i);
      var l := LargeOrigin(groups, firsts, j);
      assert firsts[k] != firsts[l];
    }
  }

  lemma MembersAreLinked(root: Links, ws: seq<Wallet>, rels: seq<Relationship>, t: real,
                         groups: map<Wallet, set<Wallet>>, firsts: seq<Wallet>, r: Wallet, x: Wallet, y: Wallet)
    requires Reflects(root, rels, t) && (forall w :: w in root ==> w in ws)
    requires Grouped(root, ws, groups, firsts) && r in groups && x in groups[r]
    ensures y in groups[r] <==> Linked(rels, t, x, y)
  {
    if x == y { LinkedSelf(rels, t, x); }
    else if Linked(rels, t, x, y) { LinkedSharesRoot(root, rels, t, x, y); }
    assert y in groups[r] <==> y in Group(root, ws, r);
  }

  method FindClusters(rels: seq<Relationship>, t: real) returns (out: seq<set<Wallet>>)
    ensures Components(rels, t, out)
  {
    var f := Grow(rels, t);
    var groups, firsts := GroupByRoot(f);
    LargeAreComponents(f.root, f.order, rels, t, groups, firsts);
    out := SelectLarge(groups, firsts);
  }

  /** One union for each relationship at or above the threshold. */
  method Grow(rels: seq<Relationship>, t: real) returns (f: Forest)
    ensures fresh(f) && f.Valid() && Reflects(f.root, rels, t)
  {
    f := new Forest();
    for k := 0 to |rels|
      invariant f.Valid() && fresh(f)
      invariant Reflects(f.root, rels[..k], t)
    {
      ghost var was := f.root;
      assert rels[..k + 1] == rels[..k] + [rels[k]];
      if rels[k].strength >= t {
        f.Union(rels[k].walletA, rels[k].walletB);
        MergedReflects(was, rels[..k], t, rels[k]);
      } else {
        WeakReflects(was, rels[..k], t, rels[k]);
      }
    }
    assert rels[..|rels|] == rels;
  }

  /** One set per root, filled wallet by wallet; each lookup halves paths on its way. */
  method GroupByRoot(f: Forest) returns (groups: map<Wallet, set<Wallet>>, firsts: seq<Wallet>)
    requires f.Valid()
    modifies f
    ensures f.Valid() && f.root == old(f.root) && f.order == old(f.order)
    ensures Grouped(f.root, f.order, groups, firsts)
  {
    ghost var root := f.root;
    var wallets := f.order;
    groups, firsts := map[], [];
    for i := 0 to |wallets|
      invariant f.Valid() && f.root == root && f.order == wallets
      invariant Grouped(root, wallets[..i], groups, firsts)
    {
      assert wallets[..i + 1] == wallets[..i] + [wallets[i]];
      groups, firsts := Place(f, wallets[..i], groups, firsts, wallets[i]);
    }
    assert wallets[..|wallets|] == wallets;
  }

  /** One more wallet, into the set of its root. */
  method Place(f: Forest, ghost ws: seq<Wallet>, groups: map<Wallet, set<Wallet>>, firsts: seq<Wallet>, w: Wallet)
    returns (more: map<Wallet, set<Wallet>>, keys: seq<Wallet>)
    requires f.Valid() && w in f.order && Grouped(f.root, ws, groups, firsts)
    modifies f
    ensures f.Valid() && f.root == old(f.root) && f.order == old(f.order)
    ensures Grouped(f.root, ws + [w], more, keys)
  {
    var r := Lookup(f, w);
    GroupGrows(f.root, ws, groups, firsts, w);
    keys := if r in groups then firsts else firsts + [r];
    more := WithMember(groups, r, w);
  }

  method Lookup(f: Forest, w: Wallet) returns (r: Wallet)
    requires f.Valid() && w in f.order
    modifies f
    ensures f.Valid() && f.root == old(f.root) && f.order == old(f.order)
    ensures w in f.root && f.root[w] == r && r in f.root && f.root[r] == r
  {
    assert w in f.parent.Keys;
    r := f.Find(w);
    assert NodeOk(f.parent, f.root, f.depth, w);
  }

  method SelectLarge(groups: map<Wallet, set<Wallet>>, firsts: seq<Wallet>) returns (out: seq<set<Wallet>>)
    requires forall r :: r in firsts ==> r in groups
    ensures out == Large(groups, firsts)
  {
    out := [];
    for i := 0 to |firsts|
      invariant out == Large(groups, firsts[..i])
    {
      assert firsts[..i + 1][..i] == firsts[..i];
      if |groups[firsts[i]]| > 1 { out := out + [groups[firsts[i]]]; }
    }
    assert firsts[..|firsts|] == firsts;
  }
}
