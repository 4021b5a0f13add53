/** Composites may reach one leaf by several role paths, as long as exactly one of them
    is not an alias (remote_robot/registry.py, `_validate_composite_aliases`). */
module Aliases {
  import opened Registry
  import opened Walkers

  datatype Canonical = Canonical(physicalId: string, groupId: string)

  function CanonicalOf(leaf: Leaf): Canonical {
    Canonical(leaf.physicalId, leaf.group.groupId)
  }

  predicate At(leaves: seq<Leaf>, i: int, c: Canonical) {
    0 <= i < |leaves| && CanonicalOf(leaves[i]) == c
  }

  predicate Primary(leaves: seq<Leaf>, i: int, c: Canonical) {
    At(leaves, i, c) && !leaves[i].aliased
  }

  ghost predicate OnlyPrimary(leaves: seq<Leaf>, i: int, c: Canonical) {
    Primary(leaves, i, c) && forall k :: Primary(leaves, k, c) ==> k == i
  }

  /** A leaf met more than once has exactly one primary path. */
  ghost predicate Unambiguous(leaves: seq<Leaf>) {
    forall i, k, c :: At(leaves, i, c) && At(leaves, k, c) && i != k ==> exists n :: OnlyPrimary(leaves, n, c)
  }

  function Positions(leaves: seq<Leaf>, c: Canonical): (places: seq<int>)
    ensures forall i :: i in places <==> At(leaves, i, c)
    ensures forall n, m :: 0 <= n < m < |places| ==> places[n] < places[m]
    decreases |leaves|
  {
    if leaves == [] then []
    else
      var n := |leaves| - 1;
      var before := Positions(leaves[..n], c);
      assert forall i :: At(leaves, i, c) <==> At(leaves[..n], i, c) || (i == n && CanonicalOf(leaves[n]) == c);
      assert forall k :: 0 <= k < |before| ==> before[k] in before;
      if CanonicalOf(leaves[n]) == c then before + [n] else before
  }

  /** The unaliased entries among the given positions, in order. */
  method PrimaryAmong(leaves: seq<Leaf>, c: Canonical, places: seq<int>) returns (primary: seq<int>)
    requires places == Positions(leaves, c)
    ensures forall i :: i in primary <==> Primary(leaves, i, c)
    ensures forall n, m :: 0 <= n < m < |primary| ==> primary[n] < primary[m]
  {
    primary := [];
    for n := 0 to |places|
      invariant forall i :: i in primary <==> i in places[..n] && Primary(leaves, i, c)
      invariant forall a, b :: 0 <= a < b < |primary| ==> primary[a] < primary[b]
    {
      assert places[..n + 1] == places[..n] + [places[n]];
      assert places[n] in places;
      assert forall a :: 0 <= a < |primary| ==> primary[a] in primary;
      if !leaves[places[n]].aliased { primary := primary + [places[n]]; }
    }
    assert places[..|places|] == places;
  }

  /** The dictionary of paths by leaf, then one look at each entry. */
  method ValidateCompositeAliases(leaves: seq<Leaf>) returns (ok: bool)
    ensures ok <==> Unambiguous(leaves)
  {
    hide Positions, Settled, Unambiguous, Primary, CanonicalOf;
    var byLeaf: map<Canonical, seq<int>> := map[];
    assert leaves[..0] == [];
    forall c { NoPositions(c); }
    for n := 0 to |leaves|
      invariant forall c :: c in byLeaf ==> byLeaf[c] == Positions(leaves[..n], c)
      invariant forall c :: c in byLeaf <==> Positions(leaves[..n], c) != []
    {
      forall d { OneMore(leaves, n, d); }
      var c := CanonicalOf(leaves[n]);
      byLeaf := byLeaf[c := (if c in byLeaf then byLeaf[c] else []) + [n]];
    }
    assert leaves[..|leaves|] == leaves;
    var todo := byLeaf.Keys;
    while todo != {}
      invariant todo <= byLeaf.Keys
      invariant forall c :: c in byLeaf && c !in todo ==> Settled(leaves, c)
      decreases |todo|
    {
      var c :| c in todo;
      todo := todo - {c};
      if |byLeaf[c]| == 1 {
        FewEntries(leaves, c);
      } else {
        var primary := PrimaryAmong(leaves, c, byLeaf[c]);
        if |primary| != 1 {
          NotSettled(leaves, c, primary);
          return false;
        }
        OneEntry(leaves, c, primary);
      }
    }
    forall c
      ensures Settled(leaves, c)
    {
      if c !in byLeaf { FewEntries(leaves, c); }
    }
    SettledIsUnambiguous(leaves);
    return true;
  }

  lemma NoPositions(c: Canonical)
    ensures Positions([], c) == []
  {
  }

  lemma OneMore(leaves: seq<Leaf>, n: nat, c: Canonical)
    requires n < |leaves|
    ensures Positions(leaves[..n + 1], c) ==
            Positions(leaves[..n], c) + if CanonicalOf(leaves[n]) == c then [n] else []
  {
    assert leaves[..n + 1][..n] == leaves[..n];
  }

  lemma FewEntries(leaves: seq<Leaf>, c: Canonical)
    requires |Positions(leaves, c)| <= 1
    ensures Settled(leaves, c)
  {
    hide Positions;
  }

  ghost predicate Settled(leaves: seq<Leaf>, c: Canonical) {
    |Positions(leaves, c)| <= 1 || exists n :: OnlyPrimary(leaves, n, c)
  }

  lemma OneEntry(leaves: seq<Leaf>, c: Canonical, primary: seq<int>)
    requires |primary| == 1 && forall i :: i in primary <==> Primary(leaves, i, c)
    ensures Settled(leaves, c)
  {
    assert primary[0] in primary;
    assert OnlyPrimary(leaves, primary[0], c);
  }

  lemma NotSettled(leaves: seq<Leaf>, c: Canonical, primary: seq<int>)
    requires 2 <= |Positions(leaves, c)| && |primary| != 1
    requires forall i :: i in primary <==> Primary(leaves, i, c)
    requires forall n, m :: 0 <= n < m < |primary| ==> primary[n] < primary[m]
    ensures !Unambiguous(leaves)
  {
    var places := Positions(leaves, c);
    assert places[0] in places && places[1] in places;
    assert At(leaves, places[0], c) && At(leaves, places[1], c);
    if |primary| == 0 {
      assert forall n :: !Primary(leaves, n, c);
    } else {
      assert primary[0] in primary && primary[1] in primary;
      assert Primary(leaves, primary[0], c) && Primary(leaves, primary[1], c);
    }
  }

  lemma SettledIsUnambiguous(leaves: seq<Leaf>)
    requires forall c :: Settled(leaves, c)
    ensures Unambiguous(leaves)
  {
    forall i, k, c | At(leaves, i, c) && At(leaves, k, c) && i != k
      ensures exists n :: OnlyPrimary(leaves, n, c)
    {
      var places := Positions(leaves, c);
      assert Settled(leaves, c);
      assert i in places && k in places;
    }
  }

  ghost predicate LeadsTo(nodes: Nodes, root: string, path: seq<string>, c: Canonical) {
    var r := Resolve(nodes, root, path);
    r.Some? && r.value.physicalId == c.physicalId && r.value.group.groupId == c.groupId
  }

  lemma ListedAt(nodes: Nodes, rank: map<string, nat>, root: string, path: seq<string>, c: Canonical) returns (i: nat)
    requires WellFormed(nodes, rank) && root in nodes && LeadsTo(nodes, root, path, c)
    ensures var leaves := LeafPaths(nodes, rank, root, [], false);
            At(leaves, i, c) && leaves[i].path == path && leaves[i].aliased == CrossesAlias(nodes, root, path)
  {
    hide LeafPaths, CrossesAlias, Resolve;
    var r := Resolve(nodes, root, path).value;
    EnumerationAgrees(nodes, rank, root, path, r);
    var leaves := LeafPaths(nodes, rank, root, [], false);
    var leaf :| leaf in leaves && leaf.path == path && leaf.physicalId == r.physicalId && leaf.group == r.group;
    i :| 0 <= i < |leaves| && leaves[i] == leaf;
    LeafResolves(nodes, rank, root, [], false, leaf);
    assert leaf.path[0..] == path;
  }

  /** In an accepted composite, a leaf with two role paths has exactly one that crosses no
      alias: its primary name. */
  lemma OnePrimaryPath(nodes: Nodes, rank: map<string, nat>, root: string, c: Canonical, a: seq<string>, b: seq<string>)
    returns (p: seq<string>)
    requires WellFormed(nodes, rank) && root in nodes && Unambiguous(LeafPaths(nodes, rank, root, [], false))
    requires a != b && LeadsTo(nodes, root, a, c) && LeadsTo(nodes, root, b, c)
    ensures LeadsTo(nodes, root, p, c) && !CrossesAlias(nodes, root, p)
    ensures forall q :: LeadsTo(nodes, root, q, c) && !CrossesAlias(nodes, root, q) ==> q == p
  {
    hide LeafPaths, CrossesAlias, Resolve, LeadsTo;
    var leaves := LeafPaths(nodes, rank, root, [], false);
    var i := ListedAt(nodes, rank, root, a, c);
    var k := ListedAt(nodes, rank, root, b, c);
    var n :| OnlyPrimary(leaves, n, c);
    p := leaves[n].path;
    LeafLeads(nodes, rank, root, leaves[n]);
    forall q | LeadsTo(nodes, root, q, c) && !CrossesAlias(nodes, root, q)
      ensures q == p
    {
      var m := ListedAt(nodes, rank, root, q, c);
      assert Primary(leaves, m, c);
    }
  }

  lemma LeafLeads(nodes: Nodes, rank: map<string, nat>, root: string, leaf: Leaf)
    requires WellFormed(nodes, rank) && root in nodes && leaf in LeafPaths(nodes, rank, root, [], false)
    ensures LeadsTo(nodes, root, leaf.path, CanonicalOf(leaf)) && leaf.aliased == CrossesAlias(nodes, root, leaf.path)
  {
    hide LeafPaths, CrossesAlias, Resolve;
    LeafResolves(nodes, rank, root, [], false, leaf);
    assert leaf.path[0..] == leaf.path;
  }
}
