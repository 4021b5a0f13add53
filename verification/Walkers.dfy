/** Two walks from a root along a role path: the registry's resolver and the leaf-path
    enumeration (remote_robot/registry.py).  They reach the same place. */
module Walkers {
  import opened Wrappers
  import opened Registry
  import RolePath

  // ---------- what the model classes enforce on construction ----------

  predicate Letter(c: char) { 'a' <= c <= 'z' || 'A' <= c <= 'Z' || 0x80 <= c as int }

  /** Starts with a letter; only letters, digits, '_' and '-'.  Characters beyond ASCII
      are taken as letters. */
  predicate Identifier(s: string) {
    s != [] && Letter(s[0]) &&
    forall i :: 0 <= i < |s| ==> Letter(s[i]) || '0' <= s[i] <= '9' || s[i] == '_' || s[i] == '-'
  }

  predicate DistinctRoles(children: seq<Child>) {
    forall i, k :: 0 <= i < k < |children| ==> children[i].role != children[k].role
  }

  predicate DistinctGroups(groups: seq<Group>) {
    forall i, k :: 0 <= i < k < |groups| ==> groups[i].groupId != groups[k].groupId
  }

  predicate WellFormedGroup(group: Group) {
    Identifier(group.groupId) && group.axes != [] && group.commandSchemas != []
  }

  predicate WellFormedNode(node: Node) {
    match node
    case Physical(_, _, _, groups) =>
      groups != [] && DistinctGroups(groups) && forall i :: 0 <= i < |groups| ==> WellFormedGroup(groups[i])
    case Composite(_, _, _, children, _) =>
      children != [] && DistinctRoles(children) && forall i :: 0 <= i < |children| ==> Identifier(children[i].role)
  }

  /** A registry that has passed construction. */
  ghost predicate WellFormed(nodes: Nodes, rank: map<string, nat>) {
    Ranked(nodes, rank) && forall id :: id in nodes ==> WellFormedNode(nodes[id])
  }

  datatype Resolved = Resolved(physicalId: string, group: Group)

  function ChildIndex(children: seq<Child>, role: string): Option<nat> {
    if children == [] then None
    else if children[0].role == role then Some(0)
    else
      var k := ChildIndex(children[1..], role);
      if k.None? then None else Some(k.value + 1)
  }

  function GroupIndex(groups: seq<Group>, id: string): Option<nat> {
    if groups == [] then None
    else if groups[0].groupId == id then Some(0)
    else
      var k := GroupIndex(groups[1..], id);
      if k.None? then None else Some(k.value + 1)
  }

  lemma {:induction false} ChildIndexSpec(children: seq<Child>, role: string)
    ensures ChildIndex(children, role).Some? ==>
              ChildIndex(children, role).value < |children| && children[ChildIndex(children, role).value].role == role
    ensures ChildIndex(children, role).None? ==> forall i :: 0 <= i < |children| ==> children[i].role != role
    decreases |children|
  {
    if children != [] { ChildIndexSpec(children[1..], role); }
  }

  lemma {:induction false} GroupIndexSpec(groups: seq<Group>, id: string)
    ensures GroupIndex(groups, id).Some? ==>
              GroupIndex(groups, id).value < |groups| && groups[GroupIndex(groups, id).value].groupId == id
    ensures GroupIndex(groups, id).None? ==> forall i :: 0 <= i < |groups| ==> groups[i].groupId != id
    decreases |groups|
  {
    if groups != [] { GroupIndexSpec(groups[1..], id); }
  }

  // ---------- 1. resolve_group ----------

  /** Where the segments lead, starting at node `id`. */
  function Resolve(nodes: Nodes, id: string, segments: seq<string>): Option<Resolved>
    decreases |segments|
  {
    if id !in nodes || segments == [] then None
    else
      match nodes[id]
      case Physical(_, _, _, groups) =>
        var g := GroupIndex(groups, segments[0]);
        if |segments| == 1 && g.Some? && g.value < |groups| then Some(Resolved(id, groups[g.value])) else None
      case Composite(_, _, _, children, _) =>
        var c := ChildIndex(children, segments[0]);
        if c.Some? && c.value < |children| then Resolve(nodes, children[c.value].nodeId, segments[1..]) else None
  }

  predicate NoEmptySegment(segments: seq<string>) {
    forall i :: 0 <= i < |segments| ==> segments[i] != []
  }

  function ResolvePath(nodes: Nodes, root: string, path: string): Option<Resolved> {
    var segments := RolePath.Split(path);
    if NoEmptySegment(segments) then Resolve(nodes, root, segments) else None
  }

  /** The resolver as written: a loop over the current node and a segment index. */
  method ResolveGroup(nodes: Nodes, root: string, path: string, ghost rank: map<string, nat>)
    returns (resolved: Option<Resolved>)
    requires WellFormed(nodes, rank)
    ensures resolved == ResolvePath(nodes, root, path)
  {
    var segments := RolePath.Split(path);
    if !NoEmptySegment(segments) || root !in nodes { return None; }
    var current, index := root, 0;
    while nodes[current].Composite?
      invariant current in nodes && index <= |segments|
      invariant Resolve(nodes, root, segments) == Resolve(nodes, current, segments[index..])
      decreases rank[current]
    {
      if index >= |segments| { return None; }
      var children := nodes[current].children;
      var c := ChildIndex(children, segments[index]);
      ChildIndexSpec(children, segments[index]);
      assert segments[index..][0] == segments[index] && segments[index..][1..] == segments[index + 1..];
      if c.None? { return None; }
      assert Edge(nodes, current, children[c.value].nodeId);
      current := children[c.value].nodeId;
      index := index + 1;
    }
    if index != |segments| - 1 { return None; }
    var groups := nodes[current].groups;
    var g := GroupIndex(groups, segments[index]);
    GroupIndexSpec(groups, segments[index]);
    if g.None? { return None; }
    return Some(Resolved(current, groups[g.value]));
  }

  // ---------- 2. leaf paths ----------

  datatype Leaf = Leaf(physicalId: string, group: Group, path: seq<string>, aliased: bool)

  function LeafPaths(nodes: Nodes, ghost rank: map<string, nat>, id: string, prefix: seq<string>,
                     aliased: bool): seq<Leaf>
    requires WellFormed(nodes, rank) && id in nodes
    decreases rank[id]
  {
    match nodes[id]
    case Physical(_, _, _, groups) =>
      seq(|groups|, i requires 0 <= i < |groups| => Leaf(id, groups[i], prefix + [groups[i].groupId], aliased))
    case Composite(_, _, _, children, _) => ChildLeaves(nodes, rank, id, children, prefix, aliased)
  }

  function ChildLeaves(nodes: Nodes, ghost rank: map<string, nat>, id: string, children: seq<Child>,
                       prefix: seq<string>, aliased: bool): seq<Leaf>
    requires WellFormed(nodes, rank) && id in nodes
    requires forall i :: 0 <= i < |children| ==> Edge(nodes, id, children[i].nodeId)
    decreases rank[id], |children|
  {
    if children == [] then []
    else
      assert Edge(nodes, id, children[0].nodeId);
      LeafPaths(nodes, rank, children[0].nodeId, prefix + [children[0].role], aliased || children[0].alias) +
      ChildLeaves(nodes, rank, id, children[1..], prefix, aliased)
  }

  /** Whether the descent along the segments takes an edge marked as an alias. */
  predicate CrossesAlias(nodes: Nodes, id: string, segments: seq<string>)
    decreases |segments|
  {
    id in nodes && segments != [] && nodes[id].Composite? &&
    var c := ChildIndex(nodes[id].children, segments[0]);
    c.Some? && c.value < |nodes[id].children| &&
    (nodes[id].children[c.value].alias || CrossesAlias(nodes, nodes[id].children[c.value].nodeId, segments[1..]))
  }

  /** Every enumerated leaf is what the resolver finds at the end of its path, and it is
      marked exactly when that path crosses an alias. */
  lemma {:induction false} LeafResolves(nodes: Nodes, rank: map<string, nat>, id: string, prefix: seq<string>,
                                        aliased: bool, leaf: Leaf)
    requires WellFormed(nodes, rank) && id in nodes && leaf in LeafPaths(nodes, rank, id, prefix, aliased)
    ensures prefix < leaf.path &&
            Resolve(nodes, id, leaf.path[|prefix|..]) == Some(Resolved(leaf.physicalId, leaf.group))
    ensures leaf.aliased == (aliased || CrossesAlias(nodes, id, leaf.path[|prefix|..]))
    decreases rank[id]
  {
    match nodes[id]
    case Physical(_, _, _, groups) =>
      var i :| 0 <= i < |groups| && leaf == Leaf(id, groups[i], prefix + [groups[i].groupId], aliased);
      assert leaf.path[|prefix|..] == [groups[i].groupId];
      GroupFound(groups, i);
    case Composite(_, _, _, children, _) =>
      ChildLeafResolves(nodes, rank, id, 0, prefix, aliased, leaf);
  }

  lemma {:induction false} ChildLeafResolves(nodes: Nodes, rank: map<string, nat>, id: string, i: nat,
                                             prefix: seq<string>, aliased: bool, leaf: Leaf)
    requires WellFormed(nodes, rank) && id in nodes && nodes[id].Composite? && i <= |nodes[id].children|
    requires leaf in ChildLeaves(nodes, rank, id, nodes[id].children[i..], prefix, aliased)
    ensures prefix < leaf.path &&
            Resolve(nodes, id, leaf.path[|prefix|..]) == Some(Resolved(leaf.physicalId, leaf.group))
    ensures leaf.aliased == (aliased || CrossesAlias(nodes, id, leaf.path[|prefix|..]))
    decreases rank[id], |nodes[id].children| - i
  {
    var children := nodes[id].children;
    var child := children[i];
    assert children[i..][0] == child && children[i..][1..] == children[i + 1..];
    assert Edge(nodes, id, child.nodeId);
    var here := LeafPaths(nodes, rank, child.nodeId, prefix + [child.role], aliased || child.alias);
    if leaf in here {
      LeafResolves(nodes, rank, child.nodeId, prefix + [child.role], aliased || child.alias, leaf);
      ChildFound(children, i);
      var rest := leaf.path[|prefix|..];
      assert rest[0] == child.role && rest[1..] == leaf.path[|prefix| + 1..];
    } else {
      ChildLeafResolves(nodes, rank, id, i + 1, prefix, aliased, leaf);
    }
  }

  lemma ChildFound(children: seq<Child>, i: nat)
    requires i < |children| && DistinctRoles(children)
    ensures ChildIndex(children, children[i].role) == Some(i)
  {
    hide ChildIndex;
    ChildIndexSpec(children, children[i].role);
  }

  lemma GroupFound(groups: seq<Group>, i: nat)
    requires i < |groups| && DistinctGroups(groups)
    ensures GroupIndex(groups, groups[i].groupId) == Some(i)
  {
    hide GroupIndex;
    GroupIndexSpec(groups, groups[i].groupId);
  }

  ghost predicate Listed(leaves: seq<Leaf>, path: seq<string>, r: Resolved) {
    exists leaf :: leaf in leaves && leaf.path == path && leaf.physicalId == r.physicalId && leaf.group == r.group
  }

  /** Every path the resolver accepts is enumerated, under the same leaf. */
  lemma {:induction false} ResolvedIsListed(nodes: Nodes, rank: map<string, nat>, id: string, segments: seq<string>,
                                            prefix: seq<string>, aliased: bool)
    requires WellFormed(nodes, rank) && id in nodes && Resolve(nodes, id, segments).Some?
    ensures Listed(LeafPaths(nodes, rank, id, prefix, aliased), prefix + segments, Resolve(nodes, id, segments).value)
    decreases |segments|
  {
    match nodes[id]
    case Physical(_, _, _, groups) =>
      GroupIndexSpec(groups, segments[0]);
      var g := GroupIndex(groups, segments[0]).value;
      var leaf := LeafPaths(nodes, rank, id, prefix, aliased)[g];
      assert segments == [segments[0]];
      assert leaf.path == prefix + segments;
    case Composite(_, _, _, children, _) =>
      ChildIndexSpec(children, segments[0]);
      var c := ChildIndex(children, segments[0]).value;
      var child := children[c];
      assert Edge(nodes, id, child.nodeId);
      ResolvedIsListed(nodes, rank, child.nodeId, segments[1..], prefix + [child.role], aliased || child.alias);
      var below := LeafPaths(nodes, rank, child.nodeId, prefix + [child.role], aliased || child.alias);
      assert prefix + [child.role] + segments[1..] == prefix + segments;
      var r := Resolve(nodes, id, segments).value;
      var leaf :| leaf in below && leaf.path == prefix + segments && leaf.physicalId == r.physicalId &&
        leaf.group == r.group;
      ChildLeavesContain(nodes, rank, id, 0, c, prefix, aliased, leaf);
      assert children[0..] == children;
  }

  lemma {:induction false} ChildLeavesContain(nodes: Nodes, rank: map<string, nat>, id: string, i: nat, c: nat,
                                              prefix: seq<string>, aliased: bool, leaf: Leaf)
    requires WellFormed(nodes, rank) && id in nodes && nodes[id].Composite? && i <= c < |nodes[id].children|
    requires Edge(nodes, id, nodes[id].children[c].nodeId)
    requires var child := nodes[id].children[c];
             leaf in LeafPaths(nodes, rank, child.nodeId, prefix + [child.role], aliased || child.alias)
    ensures leaf in ChildLeaves(nodes, rank, id, nodes[id].children[i..], prefix, aliased)
    decreases c - i
  {
    var children := nodes[id].children;
    assert children[i..][0] == children[i] && children[i..][1..] == children[i + 1..];
    if i < c { ChildLeavesContain(nodes, rank, id, i + 1, c, prefix, aliased, leaf); }
  }

  /** The enumeration lists exactly the paths the resolver accepts. */
  lemma EnumerationAgrees(nodes: Nodes, rank: map<string, nat>, root: string, segments: seq<string>, r: Resolved)
    requires WellFormed(nodes, rank) && root in nodes
    ensures Listed(LeafPaths(nodes, rank, root, [], false), segments, r) <==> Resolve(nodes, root, segments) == Some(r)
  {
    var leaves := LeafPaths(nodes, rank, root, [], false);
    if Listed(leaves, segments, r) {
      var leaf :| leaf in leaves && leaf.path == segments && leaf.physicalId == r.physicalId && leaf.group == r.group;
      LeafResolves(nodes, rank, root, [], false, leaf);
      assert leaf.path[0..] == segments;
    }
    if Resolve(nodes, root, segments) == Some(r) {
      ResolvedIsListed(nodes, rank, root, segments, [], false);
      assert [] + segments == segments;
    }
  }
}
