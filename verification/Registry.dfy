/** The control-node graph and its depth-first validation (remote_robot/registry.py). */
module Registry {
  import opened Wrappers

  datatype AxisKind = Revolute | Prismatic | Normalized

  datatype Axis = Axis(axisId: string, kind: AxisKind, minimum: real, maximum: real, maxVelocity: Option<real>)

  datatype Group = Group(groupId: string, axes: seq<Axis>, commandSchemas: seq<string>)

  datatype Child = Child(role: string, nodeId: string, alias: bool)

  datatype Node =
    | Physical(exposed: bool, resources: seq<string>, domains: seq<string>, groups: seq<Group>)
    | Composite(exposed: bool, resources: seq<string>, domains: seq<string>, children: seq<Child>,
                maxStartSkewUs: Option<int>)

  type Nodes = map<string, Node>

  // ---------- the graph ----------

  predicate Edge(nodes: Nodes, a: string, b: string) {
    a in nodes && nodes[a].Composite? && exists i :: 0 <= i < |nodes[a].children| && nodes[a].children[i].nodeId == b
  }

  ghost predicate Closed(nodes: Nodes) {
    forall a, b :: Edge(nodes, a, b) ==> b in nodes
  }

  ghost predicate Path(nodes: Nodes, p: seq<string>) {
    forall i :: 0 <= i < |p| - 1 ==> Edge(nodes, p[i], p[i + 1])
  }

  ghost predicate Cycle(nodes: Nodes, p: seq<string>) {
    2 <= |p| && p[0] == p[|p| - 1] && Path(nodes, p)
  }

  /** A rank that falls along every edge: the reason why walking the graph terminates. */
  ghost predicate Ranked(nodes: Nodes, rank: map<string, nat>) {
    nodes.Keys <= rank.Keys &&
    forall a, b :: Edge(nodes, a, b) ==> b in nodes && rank[b] < rank[a]
  }

  lemma {:induction false} RankFallsAlongPath(nodes: Nodes, rank: map<string, nat>, p: seq<string>, k: nat)
    requires Ranked(nodes, rank) && Path(nodes, p) && 0 < k < |p|
    ensures p[0] in nodes && p[k] in nodes && rank[p[k]] < rank[p[0]]
  {
    assert Edge(nodes, p[k - 1], p[k]);
    if 1 < k { RankFallsAlongPath(nodes, rank, p, k - 1); }
  }

  lemma RankedHasNoCycle(nodes: Nodes, rank: map<string, nat>, p: seq<string>)
    requires Ranked(nodes, rank)
    ensures !Cycle(nodes, p)
  {
    if Cycle(nodes, p) { RankFallsAlongPath(nodes, rank, p, |p| - 1); }
  }

  // ---------- depth-first search ----------

  /** Already finished nodes have all their successors finished, with smaller ranks. */
  ghost predicate Finished(nodes: Nodes, rank: map<string, nat>) {
    rank.Keys <= nodes.Keys && (forall a :: a in rank ==> rank[a] < |rank|) &&
    forall a, b :: a in rank && Edge(nodes, a, b) ==> b in rank && rank[b] < rank[a]
  }

  predicate Distinct(p: seq<string>) {
    forall i, k :: 0 <= i < k < |p| ==> p[i] != p[k]
  }

  datatype Verdict = Valid | MissingNode(parent: string, child: string) | CycleFound(cycle: seq<string>)

  /** What holds between two calls of the search: a path of distinct unfinished nodes
      is being explored, everything finished is ranked. */
  ghost predicate Searching(nodes: Nodes, visiting: seq<string>, visited: set<string>, rank: map<string, nat>) {
    rank.Keys == visited && Finished(nodes, rank) && Path(nodes, visiting) &&
    (forall i :: 0 <= i < |visiting| ==> visiting[i] in nodes && visiting[i] !in visited) && Distinct(visiting)
  }

  ghost function Unexplored(nodes: Nodes, visiting: seq<string>): set<string> {
    nodes.Keys - (set x | x in visiting)
  }

  lemma Descend(nodes: Nodes, visiting: seq<string>, visited: set<string>, rank: map<string, nat>, id: string)
    requires Searching(nodes, visiting, visited, rank) && id in nodes && id !in visiting && id !in visited
    requires visiting != [] ==> Edge(nodes, visiting[|visiting| - 1], id)
    ensures Searching(nodes, visiting + [id], visited, rank)
    ensures Unexplored(nodes, visiting + [id]) < Unexplored(nodes, visiting)
  {
    hide Edge, Finished;
    PathGrows(nodes, visiting, id);
    assert id in Unexplored(nodes, visiting) && id !in Unexplored(nodes, visiting + [id]);
  }

  lemma Ascend(nodes: Nodes, visiting: seq<string>, visited: set<string>, rank: map<string, nat>, id: string)
    requires Searching(nodes, visiting + [id], visited, rank) && forall b :: Edge(nodes, id, b) ==> b in visited
    ensures Searching(nodes, visiting, visited + {id}, rank[id := |rank|])
  {
    hide Edge, Finished;
    var longer := visiting + [id];
    assert longer[|visiting|] == id;
    assert forall i :: 0 <= i < |visiting| ==> visiting[i] == longer[i];
    assert Path(nodes, visiting) by {
      forall i | 0 <= i < |visiting| - 1
        ensures Edge(nodes, visiting[i], visiting[i + 1])
      {
        assert Edge(nodes, longer[i], longer[i + 1]);
      }
    }
    FinishNode(nodes, rank, id);
    assert rank[id := |rank|].Keys == visited + {id};
  }

  class GraphCheck {
    const nodes: Nodes
    var visiting: seq<string>
    var visited: set<string>
    ghost var rank: map<string, nat>

    ghost predicate Good()
      reads this
    {
      Searching(nodes, visiting, visited, rank)
    }

    constructor (nodes: Nodes)
      ensures this.nodes == nodes && visiting == [] && visited == {} && rank == map[] && Good()
    {
      this.nodes := nodes;
      visiting, visited, rank := [], {}, map[];
    }

    /** Finish `id` and everything below it, or report a cycle through the path. */
    method Visit(id: string) returns (cycle: Option<seq<string>>)
      requires Good() && Closed(nodes) && id in nodes
      requires visiting != [] ==> Edge(nodes, visiting[|visiting| - 1], id)
      modifies this
      ensures cycle.Some? ==> Cycle(nodes, cycle.value)
      ensures cycle.None? ==> Good() && visiting == old(visiting) && id in visited && old(visited) <= visited
      decreases Unexplored(nodes, visiting), 1
    {
      hide Edge, Searching, Closed, Cycle, Unexplored;
      if id in visiting {
        var start := IndexOf(visiting, id);
        cycle := Some(visiting[start..] + [id]);
        PathOf(nodes, visiting, visited, rank);
        CloseCycle(nodes, visiting, start, id);
        return;
      }
      if id in visited { return None; }
      ghost var before := visiting;
      Descend(nodes, visiting, visited, rank, id);
      visiting := visiting + [id];
      if nodes[id].Composite? {
        cycle := VisitChildren(id);
        if cycle.Some? { return; }
      } else {
        NoEdges(nodes, id);
      }
      assert visiting[..|visiting| - 1] == before;
      Ascend(nodes, before, visited, rank, id);
      visiting := visiting[..|visiting| - 1];
      rank := rank[id := |rank|];
      visited := visited + {id};
      return None;
    }

    method VisitChildren(id: string) returns (cycle: Option<seq<string>>)
      requires Good() && Closed(nodes) && id in nodes && nodes[id].Composite?
      requires visiting != [] && visiting[|visiting| - 1] == id
      modifies this
      ensures cycle.Some? ==> Cycle(nodes, cycle.value)
      ensures cycle.None? ==> Good() && visiting == old(visiting) && old(visited) <= visited
      ensures cycle.None? ==> forall b :: Edge(nodes, id, b) ==> b in visited
      decreases Unexplored(nodes, visiting), 2
    {
      hide Searching, Cycle, Unexplored;
      var children := nodes[id].children;
      for i := 0 to |children|
        invariant Good() && visiting == old(visiting) && old(visited) <= visited
        invariant forall k :: 0 <= k < i ==> children[k].nodeId in visited
      {
        assert Edge(nodes, id, children[i].nodeId);
        cycle := Visit(children[i].nodeId);
        if cycle.Some? { return; }
      }
      return None;
    }
  }

  lemma PathOf(nodes: Nodes, visiting: seq<string>, visited: set<string>, rank: map<string, nat>)
    requires Searching(nodes, visiting, visited, rank)
    ensures Path(nodes, visiting)
  {
  }

  lemma NoEdges(nodes: Nodes, id: string)
    requires id in nodes && nodes[id].Physical?
    ensures forall b :: !Edge(nodes, id, b)
  {
  }

  function IndexOf(p: seq<string>, id: string): (i: nat)
    requires id in p
    ensures i < |p| && p[i] == id
  {
    if p[0] == id then 0 else 1 + IndexOf(p[1..], id)
  }

  lemma CloseCycle(nodes: Nodes, p: seq<string>, start: nat, id: string)
    requires Path(nodes, p) && start < |p| && p[start] == id && Edge(nodes, p[|p| - 1], id)
    ensures Cycle(nodes, p[start..] + [id])
  {
    var c := p[start..] + [id];
    forall i | 0 <= i < |c| - 1
      ensures Edge(nodes, c[i], c[i + 1])
    {
      if i < |c| - 2 { assert Edge(nodes, p[start + i], p[start + i + 1]); }
    }
  }

  lemma PathGrows(nodes: Nodes, p: seq<string>, id: string)
    requires Path(nodes, p) && (p != [] ==> Edge(nodes, p[|p| - 1], id))
    ensures Path(nodes, p + [id])
  {
    var q := p + [id];
    forall i | 0 <= i < |q| - 1
      ensures Edge(nodes, q[i], q[i + 1])
    {
      if i < |p| - 1 { assert Edge(nodes, p[i], p[i + 1]); }
    }
  }

  lemma FinishNode(nodes: Nodes, rank: map<string, nat>, id: string)
    requires Finished(nodes, rank) && id in nodes && id !in rank
    requires forall b :: Edge(nodes, id, b) ==> b in rank
    ensures Finished(nodes, rank[id := |rank|])
  {
    var rank' := rank[id := |rank|];
    assert |rank'| == |rank| + 1;
  }

  /** The first pass: every referenced child must exist. */
  method CheckReferences(nodes: Nodes, order: seq<string>) returns (v: Verdict)
    requires forall id :: id in order <==> id in nodes
    ensures v.Valid? || v.MissingNode?
    ensures v.Valid? ==> Closed(nodes)
    ensures v.MissingNode? ==> Edge(nodes, v.parent, v.child) && v.child !in nodes
  {
    for i := 0 to |order|
      invariant forall k, b :: 0 <= k < i && Edge(nodes, order[k], b) ==> b in nodes
    {
      var node := nodes[order[i]];
      if node.Composite? {
        for c := 0 to |node.children|
          invariant forall k :: 0 <= k < c ==> node.children[k].nodeId in nodes
        {
          if node.children[c].nodeId !in nodes {
            assert Edge(nodes, order[i], node.children[c].nodeId);
            return MissingNode(order[i], node.children[c].nodeId);
          }
        }
      }
    }
    return Valid;
  }

  /** Accepts exactly the graphs without dangling references and without cycles; a
      rejected graph comes with the offending reference or with a real cycle, an
      accepted one with a rank for every walk that follows. */
  method ValidateGraph(nodes: Nodes, order: seq<string>) returns (v: Verdict, ghost rank: map<string, nat>)
    requires forall id :: id in order <==> id in nodes
    ensures v.Valid? ==> Ranked(nodes, rank)
    ensures v.Valid? <==> Closed(nodes) && forall p :: !Cycle(nodes, p)
    ensures v.MissingNode? ==> Edge(nodes, v.parent, v.child) && v.child !in nodes
    ensures v.CycleFound? ==> Cycle(nodes, v.cycle)
  {
    hide Edge, Cycle, Searching;
    rank := map[];
    v := CheckReferences(nodes, order);
    if v.MissingNode? { return; }
    var check := new GraphCheck(nodes);
    for i := 0 to |order|
      invariant check.nodes == nodes && check.Good() && check.visiting == []
      invariant forall k :: 0 <= k < i ==> order[k] in check.visited
    {
      var cycle := check.Visit(order[i]);
      if cycle.Some? { return CycleFound(cycle.value), rank; }
    }
    rank := check.rank;
    FinishedIsRanked(nodes, check.visited, rank);
    forall p
      ensures !Cycle(nodes, p)
    {
      RankedHasNoCycle(nodes, rank, p);
    }
    return Valid, rank;
  }

  lemma FinishedIsRanked(nodes: Nodes, visited: set<string>, rank: map<string, nat>)
    requires Searching(nodes, [], visited, rank) && nodes.Keys <= visited
    ensures Ranked(nodes, rank)
  {
  }
}
