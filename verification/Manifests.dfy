/** Recursive capability manifests, and the two walks that read nothing else. */
module Manifests {
  import opened Wrappers
  import opened Registry
  import opened Walkers
  import RolePath

  datatype Manifest =
    | PhysicalManifest(nodeId: string, exposed: bool, resources: seq<string>, domains: seq<string>, groups: seq<Group>)
    | CompositeManifest(nodeId: string, exposed: bool, resources: seq<string>, domains: seq<string>,
                        children: seq<ChildManifest>, maxStartSkewUs: Option<int>)

  datatype ChildManifest = ChildManifest(role: string, nodeId: string, alias: bool, manifest: Manifest)

  function Build(nodes: Nodes, ghost rank: map<string, nat>, id: string): (m: Manifest)
    requires WellFormed(nodes, rank) && id in nodes
    ensures m.nodeId == id && (m.PhysicalManifest? <==> nodes[id].Physical?)
    decreases rank[id]
  {
    match nodes[id]
    case Physical(exposed, resources, domains, groups) => PhysicalManifest(id, exposed, resources, domains, groups)
    case Composite(exposed, resources, domains, children, skew) =>
      CompositeManifest(id, exposed, resources, domains, BuildChildren(nodes, rank, id, children), skew)
  }

  function BuildChildren(nodes: Nodes, ghost rank: map<string, nat>, id: string,
                         children: seq<Child>): (ms: seq<ChildManifest>)
    requires WellFormed(nodes, rank) && id in nodes
    requires forall i :: 0 <= i < |children| ==> Edge(nodes, id, children[i].nodeId)
    ensures |ms| == |children|
    ensures forall i :: 0 <= i < |children| ==>
              Edge(nodes, id, children[i].nodeId) &&
              ms[i] == ChildManifest(children[i].role, children[i].nodeId, children[i].alias,
                                     Build(nodes, rank, children[i].nodeId))
    decreases rank[id], |children|
  {
    if children == [] then []
    else
      assert Edge(nodes, id, children[0].nodeId);
      [ChildManifest(children[0].role, children[0].nodeId, children[0].alias, Build(nodes, rank, children[0].nodeId))] +
      BuildChildren(nodes, rank, id, children[1..])
  }

  /** Children of a given role; both walks insist on exactly one. */
  function Matching(children: seq<ChildManifest>, role: string): seq<ChildManifest> {
    if children == [] then []
    else (if children[0].role == role then [children[0]] else []) + Matching(children[1..], role)
  }

  function MatchingGroups(groups: seq<Group>, id: string): seq<Group> {
    if groups == [] then []
    else (if groups[0].groupId == id then [groups[0]] else []) + MatchingGroups(groups[1..], id)
  }

  // ---------- 3. the client's walk ----------

  function ClientWalk(m: Manifest, segments: seq<string>): Option<Resolved>
    decreases |segments|
  {
    if segments == [] then None
    else if |segments| == 1 then
      if !m.PhysicalManifest? then None
      else
        var groups := MatchingGroups(m.groups, segments[0]);
        if |groups| == 1 then Some(Resolved(m.nodeId, groups[0])) else None
    else if !m.CompositeManifest? then None
    else
      var matches := Matching(m.children, segments[0]);
      if |matches| == 1 then ClientWalk(matches[0].manifest, segments[1..]) else None
  }

  function ClientResolve(m: Manifest, path: string): Option<Resolved> {
    var segments := RolePath.Split(path);
    if NoEmptySegment(segments) then ClientWalk(m, segments) else None
  }

  /** The client's loop over all but the last segment. */
  method RemoteResolveGroup(manifest: Manifest, path: string) returns (resolved: Option<Resolved>)
    ensures resolved == ClientResolve(manifest, path)
  {
    var segments := RolePath.Split(path);
    if !NoEmptySegment(segments) { return None; }
    var current := manifest;
    for i := 0 to |segments| - 1
      invariant ClientWalk(manifest, segments) == ClientWalk(current, segments[i..])
    {
      assert segments[i..][0] == segments[i] && segments[i..][1..] == segments[i + 1..];
      if !current.CompositeManifest? { return None; }
      var matches := Matching(current.children, segments[i]);
      if |matches| != 1 { return None; }
      current := matches[0].manifest;
    }
    assert segments[|segments| - 1..] == [segments[|segments| - 1]];
    if !current.PhysicalManifest? { return None; }
    var groups := MatchingGroups(current.groups, segments[|segments| - 1]);
    if |groups| != 1 { return None; }
    return Some(Resolved(current.nodeId, groups[0]));
  }

  // ---------- 4. the orchestrator's lock walk ----------

  datatype Locks = Locks(resources: set<string>, domains: set<string>)

  function Own(m: Manifest): Locks {
    Locks(set x | x in m.resources, set x | x in m.domains)
  }

  function Union(a: Locks, b: Locks): Locks {
    Locks(a.resources + b.resources, a.domains + b.domains)
  }

  function LockWalk(m: Manifest, segments: seq<string>, expected: string): Option<Locks>
    decreases |segments|
  {
    if m.PhysicalManifest? then
      if m.nodeId == expected && |segments| == 1 then Some(Own(m)) else None
    else if |segments| < 2 then None
    else
      var matches := Matching(m.children, segments[0]);
      if |matches| != 1 then None
      else
        var below := LockWalk(matches[0].manifest, segments[1..], expected);
        if below.None? then None else Some(Union(Own(m), below.value))
  }

  /** The orchestrator's loop, which adds to the caller's sets as it descends. */
  method CollectRoleBranchLocks(root: Manifest, path: string, expected: string, into: Locks)
    returns (ok: bool, locks: Locks)
    ensures ok <==> LockWalk(root, RolePath.Split(path), expected).Some?
    ensures ok ==> locks == Union(into, LockWalk(root, RolePath.Split(path), expected).value)
  {
    var current, segments := root, RolePath.Split(path);
    locks := into;
    ghost var gathered := Locks({}, {});
    while true
      invariant locks == Union(into, gathered)
      invariant LockWalk(root, RolePath.Split(path), expected).Some? <==> LockWalk(current, segments, expected).Some?
      invariant var all := LockWalk(root, RolePath.Split(path), expected);
                var below := LockWalk(current, segments, expected);
                below.Some? ==> all.value == Union(gathered, below.value)
      decreases |segments|
    {
      locks := Union(locks, Own(current));
      if current.PhysicalManifest? {
        if current.nodeId != expected || |segments| != 1 { return false, locks; }
        return true, locks;
      }
      if |segments| < 2 { return false, locks; }
      var matches := Matching(current.children, segments[0]);
      if |matches| != 1 { return false, locks; }
      gathered := Union(gathered, Own(current));
      current, segments := matches[0].manifest, segments[1..];
    }
  }

  // ---------- agreement ----------

  lemma {:induction false} MatchingUnique(children: seq<Child>, ms: seq<ChildManifest>, role: string)
    requires DistinctRoles(children) && |ms| == |children|
    requires forall i :: 0 <= i < |ms| ==> ms[i].role == children[i].role
    ensures var c := ChildIndex(children, role);
            if c.Some? then c.value < |children| && Matching(ms, role) == [ms[c.value]] else Matching(ms, role) == []
    decreases |children|
  {
    if children != [] {
      MatchingUnique(children[1..], ms[1..], role);
      if children[0].role == role { ChildIndexSpec(children[1..], role); }
    }
  }

  lemma {:induction false} MatchingGroupUnique(groups: seq<Group>, id: string)
    requires DistinctGroups(groups)
    ensures var g := GroupIndex(groups, id);
            if g.Some? then g.value < |groups| && MatchingGroups(groups, id) == [groups[g.value]]
              else MatchingGroups(groups, id) == []
    decreases |groups|
  {
    if groups != [] {
      MatchingGroupUnique(groups[1..], id);
      if groups[0].groupId == id { GroupIndexSpec(groups[1..], id); }
    }
  }

  /** One descent step in the graph is one descent step in the manifest. */
  lemma SameStep(nodes: Nodes, rank: map<string, nat>, id: string, role: string)
    requires WellFormed(nodes, rank) && id in nodes && nodes[id].Composite?
    ensures var c := ChildIndex(nodes[id].children, role);
            var matches := Matching(Build(nodes, rank, id).children, role);
            (|matches| == 1 <==> c.Some?) &&
            (c.Some? ==> c.value < |nodes[id].children| && nodes[id].children[c.value].nodeId in nodes &&
                         matches[0].manifest == Build(nodes, rank, nodes[id].children[c.value].nodeId))
  {
    var children := nodes[id].children;
    assert forall i :: 0 <= i < |children| ==> Edge(nodes, id, children[i].nodeId);
    MatchingUnique(children, BuildChildren(nodes, rank, id, children), role);
  }

  /** The client's walk over the manifest is the registry's resolution. */
  lemma {:induction false} ClientAgrees(nodes: Nodes, rank: map<string, nat>, id: string, segments: seq<string>)
    requires WellFormed(nodes, rank) && id in nodes
    ensures ClientWalk(Build(nodes, rank, id), segments) == Resolve(nodes, id, segments)
    decreases |segments|
  {
    hide Matching, ChildIndex, BuildChildren;
    if segments != [] {
      match nodes[id]
      case Physical(_, _, _, groups) => MatchingGroupUnique(groups, segments[0]);
      case Composite(_, _, _, children, _) =>
        SameStep(nodes, rank, id, segments[0]);
        var c := ChildIndex(children, segments[0]);
        if c.Some? {
          ClientAgrees(nodes, rank, children[c.value].nodeId, segments[1..]);
          NothingLeft(nodes, children[c.value].nodeId, segments[1..]);
        }
    }
  }

  lemma NothingLeft(nodes: Nodes, id: string, segments: seq<string>)
    ensures segments == [] ==> Resolve(nodes, id, segments).None?
  {
  }

  /** The physical node a path leads to, whether or not its last segment is a group. */
  function PhysicalAt(nodes: Nodes, id: string, segments: seq<string>): Option<string>
    decreases |segments|
  {
    if id !in nodes || segments == [] then None
    else if nodes[id].Physical? then (if |segments| == 1 then Some(id) else None)
    else
      var c := ChildIndex(nodes[id].children, segments[0]);
      if c.Some? && c.value < |nodes[id].children|
        then PhysicalAt(nodes, nodes[id].children[c.value].nodeId, segments[1..]) else None
  }

  lemma {:induction false} ResolveReaches(nodes: Nodes, id: string, segments: seq<string>)
    requires Resolve(nodes, id, segments).Some?
    ensures PhysicalAt(nodes, id, segments) == Some(Resolve(nodes, id, segments).value.physicalId)
    ensures Resolve(nodes, id, segments).value.physicalId in nodes
    decreases |segments|
  {
    if nodes[id].Composite? {
      var c := ChildIndex(nodes[id].children, segments[0]);
      ResolveReaches(nodes, nodes[id].children[c.value].nodeId, segments[1..]);
    }
  }

  ghost predicate Covers(nodes: Nodes, id: string, locks: Locks) {
    id in nodes &&
    (forall x :: x in nodes[id].resources ==> x in locks.resources) &&
    (forall x :: x in nodes[id].domains ==> x in locks.domains)
  }

  /** The lock walk succeeds exactly for the physical node the path leads to, and always
      collects that node's own resources and safety domains. */
  lemma {:induction false} LockWalkAgrees(nodes: Nodes, rank: map<string, nat>, id: string, segments: seq<string>,
                                          expected: string)
    requires WellFormed(nodes, rank) && id in nodes
    ensures var locks := LockWalk(Build(nodes, rank, id), segments, expected);
            (locks.Some? <==> PhysicalAt(nodes, id, segments) == Some(expected)) &&
            (locks.Some? ==> Covers(nodes, expected, locks.value))
    decreases |segments|
  {
    hide Matching, ChildIndex, BuildChildren;
    if nodes[id].Composite? && segments != [] {
      SameStep(nodes, rank, id, segments[0]);
      var c := ChildIndex(nodes[id].children, segments[0]);
      if c.Some? { LockWalkAgrees(nodes, rank, nodes[id].children[c.value].nodeId, segments[1..], expected); }
    }
  }

  /** The nodes a path visits, from the root down to the physical one. */
  function Branch(nodes: Nodes, id: string, segments: seq<string>): seq<string>
    decreases |segments|
  {
    if id !in nodes || segments == [] then []
    else if nodes[id].Physical? then [id]
    else
      var c := ChildIndex(nodes[id].children, segments[0]);
      if c.Some? && c.value < |nodes[id].children|
      then [id] + Branch(nodes, nodes[id].children[c.value].nodeId, segments[1..]) else [id]
  }

  ghost predicate OnBranch(nodes: Nodes, branch: seq<string>, resource: bool, x: string) {
    exists n :: n in branch && n in nodes && x in (if resource then nodes[n].resources else nodes[n].domains)
  }

  lemma OnLonger(nodes: Nodes, id: string, rest: seq<string>, resource: bool, x: string)
    requires id in nodes
    ensures OnBranch(nodes, [id] + rest, resource, x) <==>
              x in (if resource then nodes[id].resources else nodes[id].domains) || OnBranch(nodes, rest, resource, x)
  {
    assert id in [id] + rest;
    forall n | n in rest
      ensures n in [id] + rest
    {
    }
  }

  /** The lock walk collects exactly what the nodes of the branch declare: the composites
      above as well as the physical node, each resource as a resource and each safety
      domain as a safety domain. */
  lemma {:induction false} LockWalkIsExact(nodes: Nodes, rank: map<string, nat>, id: string, segments: seq<string>,
                                           expected: string, x: string)
    requires WellFormed(nodes, rank) && id in nodes
    requires LockWalk(Build(nodes, rank, id), segments, expected).Some?
    ensures var locks := LockWalk(Build(nodes, rank, id), segments, expected).value;
            (x in locks.resources <==> OnBranch(nodes, Branch(nodes, id, segments), true, x)) &&
            (x in locks.domains <==> OnBranch(nodes, Branch(nodes, id, segments), false, x))
    decreases |segments|
  {
    hide Matching, ChildIndex, BuildChildren, OnBranch;
    BuildOwn(nodes, rank, id);
    match nodes[id]
    case Physical(_, _, _, _) =>
      assert Branch(nodes, id, segments) == [id] + [];
      OnLonger(nodes, id, [], true, x);
      OnLonger(nodes, id, [], false, x);
      NothingOn(nodes, x);
    case Composite(_, _, _, children, _) =>
      SameStep(nodes, rank, id, segments[0]);
      var c := ChildIndex(children, segments[0]).value;
      LockWalkIsExact(nodes, rank, children[c].nodeId, segments[1..], expected, x);
      OnLonger(nodes, id, Branch(nodes, children[c].nodeId, segments[1..]), true, x);
      OnLonger(nodes, id, Branch(nodes, children[c].nodeId, segments[1..]), false, x);
  }

  lemma NothingOn(nodes: Nodes, x: string)
    ensures !OnBranch(nodes, [], true, x) && !OnBranch(nodes, [], false, x)
  {
  }

  /** A manifest says of its own node what the registry says. */
  lemma BuildOwn(nodes: Nodes, rank: map<string, nat>, id: string)
    requires WellFormed(nodes, rank) && id in nodes
    ensures var m := Build(nodes, rank, id);
            m.resources == nodes[id].resources && m.domains == nodes[id].domains && m.exposed == nodes[id].exposed &&
            (m.PhysicalManifest? ==> nodes[id].Physical? && m.groups == nodes[id].groups) &&
            (m.CompositeManifest? ==>
               nodes[id].Composite? && m.maxStartSkewUs == nodes[id].maxStartSkewUs &&
               |m.children| == |nodes[id].children|)
  {
  }

  /** The node and the manifest that the same roles lead to. */
  function NodeAt(nodes: Nodes, id: string, roles: seq<string>): Option<string>
    decreases |roles|
  {
    if id !in nodes then None
    else if roles == [] then Some(id)
    else if nodes[id].Physical? then None
    else
      var c := ChildIndex(nodes[id].children, roles[0]);
      if c.Some? && c.value < |nodes[id].children| then NodeAt(nodes, nodes[id].children[c.value].nodeId, roles[1..])
      else None
  }

  function ManifestAt(m: Manifest, roles: seq<string>): Option<Manifest>
    decreases |roles|
  {
    if roles == [] then Some(m)
    else if m.PhysicalManifest? then None
    else
      var matches := Matching(m.children, roles[0]);
      if |matches| == 1 then ManifestAt(matches[0].manifest, roles[1..]) else None
  }

  /** A recursive manifest mirrors the registry: whatever roles one follows, both end or
      fail together, and at the end the manifest is that of the node reached. */
  lemma {:induction false} ManifestMirrors(nodes: Nodes, rank: map<string, nat>, id: string, roles: seq<string>)
    requires WellFormed(nodes, rank) && id in nodes
    ensures var n, m := NodeAt(nodes, id, roles), ManifestAt(Build(nodes, rank, id), roles);
            (n.Some? <==> m.Some?) && (n.Some? ==> n.value in nodes && m.value == Build(nodes, rank, n.value))
    decreases |roles|
  {
    hide Matching, ChildIndex, BuildChildren;
    if roles != [] && nodes[id].Composite? {
      SameStep(nodes, rank, id, roles[0]);
      var c := ChildIndex(nodes[id].children, roles[0]);
      if c.Some? { ManifestMirrors(nodes, rank, nodes[id].children[c.value].nodeId, roles[1..]); }
    }
  }

  lemma {:induction false} ResolvedHasNoEmptySegment(nodes: Nodes, rank: map<string, nat>, id: string,
                                                     segments: seq<string>)
    requires WellFormed(nodes, rank) && Resolve(nodes, id, segments).Some?
    ensures forall i :: 0 <= i < |segments| ==> Identifier(segments[i])
    decreases |segments|
  {
    match nodes[id]
    case Physical(_, _, _, groups) => GroupIndexSpec(groups, segments[0]);
    case Composite(_, _, _, children, _) =>
      ChildIndexSpec(children, segments[0]);
      var c := ChildIndex(children, segments[0]).value;
      ResolvedHasNoEmptySegment(nodes, rank, children[c].nodeId, segments[1..]);
      assert segments == [segments[0]] + segments[1..];
  }

  lemma IdentifierIsDotFree(s: string)
    requires Identifier(s)
    ensures RolePath.DotFree(s) && s != []
  {
  }

  predicate HasGroup(nodes: Nodes, id: string, groupId: string) {
    id in nodes && nodes[id].Physical? &&
    exists i :: 0 <= i < |nodes[id].groups| && nodes[id].groups[i].groupId == groupId
  }

  /** A path resolves exactly when it leads to a physical node and its last segment names
      one of that node's groups. */
  lemma {:induction false} ResolveIff(nodes: Nodes, id: string, segments: seq<string>)
    requires segments != []
    ensures Resolve(nodes, id, segments).Some? <==>
              PhysicalAt(nodes, id, segments).Some? &&
              HasGroup(nodes, PhysicalAt(nodes, id, segments).value, segments[|segments| - 1])
    decreases |segments|
  {
    hide GroupIndex, ChildIndex;
    if id in nodes {
      match nodes[id]
      case Physical(_, _, _, groups) => GroupIndexSpec(groups, segments[0]);
      case Composite(_, _, _, children, _) =>
        var c := ChildIndex(children, segments[0]);
        if c.Some? && c.value < |children| && 1 < |segments| {
          ResolveIff(nodes, children[c.value].nodeId, segments[1..]);
        }
    }
  }

  /** For every valid registry and every role path: resolver, client and enumeration agree
      on the leaf, or all three fail.  The lock walk looks at one segment less.  It agrees
      with them on the physical node, and succeeds exactly for the node the path leads to,
      whatever the last segment says. */
  lemma FourWalksAgree(nodes: Nodes, rank: map<string, nat>, root: string, path: string, r: Resolved, p: string)
    requires WellFormed(nodes, rank) && root in nodes
    ensures ResolvePath(nodes, root, path) == Some(r) <==> ClientResolve(Build(nodes, rank, root), path) == Some(r)
    ensures ResolvePath(nodes, root, path) == Some(r) <==>
              Listed(LeafPaths(nodes, rank, root, [], false), RolePath.Split(path), r)
    ensures LockWalk(Build(nodes, rank, root), RolePath.Split(path), p).Some? <==>
              PhysicalAt(nodes, root, RolePath.Split(path)) == Some(p)
    ensures ResolvePath(nodes, root, path) == Some(r) ==>
              PhysicalAt(nodes, root, RolePath.Split(path)) == Some(r.physicalId)
  {
    hide Resolve, ClientWalk, LockWalk, LeafPaths, Listed, Build, RolePath.Split, Identifier;
    var segments := RolePath.Split(path);
    ClientAgrees(nodes, rank, root, segments);
    EnumerationAgrees(nodes, rank, root, segments, r);
    LockWalkAgrees(nodes, rank, root, segments, p);
    if Resolve(nodes, root, segments) == Some(r) {
      NoEmptySegments(nodes, rank, root, segments);
      ResolveReaches(nodes, root, segments);
    }
  }

  lemma NoEmptySegments(nodes: Nodes, rank: map<string, nat>, id: string, segments: seq<string>)
    requires WellFormed(nodes, rank) && Resolve(nodes, id, segments).Some?
    ensures NoEmptySegment(segments)
  {
    hide Resolve, Identifier;
    ResolvedHasNoEmptySegment(nodes, rank, id, segments);
    forall i | 0 <= i < |segments| { IdentifierIsDotFree(segments[i]); }
  }

  /** The lock walk accepts a path that the other three refuse exactly when the path leads
      to the expected physical node and its last segment is none of that node's groups. */
  lemma LockWalkIsLaxer(nodes: Nodes, rank: map<string, nat>, root: string, path: string, p: string)
    requires WellFormed(nodes, rank) && root in nodes
    ensures var segments := RolePath.Split(path);
            LockWalk(Build(nodes, rank, root), segments, p).Some? && ResolvePath(nodes, root, path).None? <==>
            PhysicalAt(nodes, root, segments) == Some(p) && !HasGroup(nodes, p, segments[|segments| - 1])
  {
    hide Resolve, LockWalk, Build, RolePath.Split, PhysicalAt, HasGroup, WellFormed;
    var segments := RolePath.Split(path);
    LockWalkAgrees(nodes, rank, root, segments, p);
    ResolveIff(nodes, root, segments);
    if Resolve(nodes, root, segments).Some? { NoEmptySegments(nodes, rank, root, segments); }
  }

  /** Such a path exists: a lone physical root with one group, and another last segment. */
  lemma LockWalkAcceptsUnknownGroup() returns (nodes: Nodes, rank: map<string, nat>)
    ensures WellFormed(nodes, rank) && "a" in nodes
    ensures ResolvePath(nodes, "a", "x").None? && ResolvePath(nodes, "a", "").None?
    ensures LockWalk(Build(nodes, rank, "a"), RolePath.Split("x"), "a").Some?
    ensures LockWalk(Build(nodes, rank, "a"), RolePath.Split(""), "a").Some?
  {
    var axis := Axis("x", Normalized, 0.0, 1.0, None);
    var group := Group("g", [axis], ["normalized_position_trajectory/v1"]);
    nodes, rank := map["a" := Physical(true, [], [], [group])], map["a" := 0];
    assert !HasGroup(nodes, "a", "x") && !HasGroup(nodes, "a", "");
    LockWalkIsLaxer(nodes, rank, "a", "x", "a");
    LockWalkIsLaxer(nodes, rank, "a", "", "a");
  }

  /** A leaf's dotted path, as the registry prints it, resolves back to that leaf. */
  lemma PrintedPathResolves(nodes: Nodes, rank: map<string, nat>, root: string, leaf: Leaf)
    requires WellFormed(nodes, rank) && root in nodes && leaf in LeafPaths(nodes, rank, root, [], false)
    ensures leaf.path != [] &&
            ResolvePath(nodes, root, RolePath.Join(leaf.path)) == Some(Resolved(leaf.physicalId, leaf.group))
  {
    LeafResolves(nodes, rank, root, [], false, leaf);
    assert leaf.path[0..] == leaf.path;
    ResolvedHasNoEmptySegment(nodes, rank, root, leaf.path);
    forall i | 0 <= i < |leaf.path| { IdentifierIsDotFree(leaf.path[i]); }
    RolePath.SplitJoin(leaf.path);
  }

  // ---------- descendants ----------

  function Descendants(nodes: Nodes, ghost rank: map<string, nat>, id: string): set<string>
    requires WellFormed(nodes, rank) && id in nodes
    decreases rank[id]
  {
    match nodes[id]
    case Physical(_, _, _, _) => {id}
    case Composite(_, _, _, children, _) => ChildDescendants(nodes, rank, id, children)
  }

  function ChildDescendants(nodes: Nodes, ghost rank: map<string, nat>, id: string, children: seq<Child>): set<string>
    requires WellFormed(nodes, rank) && id in nodes
    requires forall i :: 0 <= i < |children| ==> Edge(nodes, id, children[i].nodeId)
    decreases rank[id], |children|
  {
    if children == [] then {}
    else
      assert Edge(nodes, id, children[0].nodeId);
      Descendants(nodes, rank, children[0].nodeId) + ChildDescendants(nodes, rank, id, children[1..])
  }

  /** The physical descendants of a node are the nodes its leaf paths end in. */
  lemma {:induction false} DescendantsAreLeafNodes(nodes: Nodes, rank: map<string, nat>, id: string,
                                                   prefix: seq<string>, aliased: bool)
    requires WellFormed(nodes, rank) && id in nodes
    ensures Descendants(nodes, rank, id) ==
            set leaf | leaf in LeafPaths(nodes, rank, id, prefix, aliased) :: leaf.physicalId
    decreases rank[id]
  {
    match nodes[id]
    case Physical(_, _, _, groups) => assert LeafPaths(nodes, rank, id, prefix, aliased)[0].physicalId == id;
    case Composite(_, _, _, children, _) => ChildDescendantsAreLeafNodes(nodes, rank, id, children, prefix, aliased);
  }

  lemma {:induction false} ChildDescendantsAreLeafNodes(nodes: Nodes, rank: map<string, nat>, id: string,
                                                        children: seq<Child>, prefix: seq<string>, aliased: bool)
    requires WellFormed(nodes, rank) && id in nodes
    requires forall i :: 0 <= i < |children| ==> Edge(nodes, id, children[i].nodeId)
    ensures ChildDescendants(nodes, rank, id, children)
         == set leaf | leaf in ChildLeaves(nodes, rank, id, children, prefix, aliased) :: leaf.physicalId
    decreases rank[id], |children|
  {
    if children != [] {
      assert Edge(nodes, id, children[0].nodeId);
      DescendantsAreLeafNodes(nodes, rank, children[0].nodeId, prefix + [children[0].role],
                              aliased || children[0].alias);
      ChildDescendantsAreLeafNodes(nodes, rank, id, children[1..], prefix, aliased);
    }
  }
}
