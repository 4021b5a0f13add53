/** The two registries a compiler may be given: the server's own graph, and the manifest
    a client has downloaded for one root. */
module RegistryViews {
  import opened Wrappers
  import opened Registry
  import opened Walkers
  import opened Manifests
  import RolePath
  import Values
  import Compiler
  import Artifact
  import Quintic
  import Protocol

  function KindName(kind: AxisKind): string {
    match kind
    case Revolute => "revolute"
    case Prismatic => "prismatic"
    case Normalized => "normalized"
  }

  function UnitName(kind: AxisKind): string {
    match kind
    case Revolute => "rad"
    case Prismatic => "m"
    case Normalized => "1"
  }

  function AxisView(a: Axis): Compiler.Axis {
    Compiler.Axis(a.axisId, KindName(a.kind), UnitName(a.kind), Some(a.minimum), Some(a.maximum), a.maxVelocity, None)
  }

  function ResolutionView(r: Resolved): Compiler.Resolution {
    var axes := r.group.axes;
    Compiler.Resolution(Compiler.Target(r.physicalId, r.group.groupId), r.group.commandSchemas,
                        seq(|axes|, i requires 0 <= i < |axes| => AxisView(axes[i])))
  }

  function View(r: Option<Resolved>): Option<Compiler.Resolution> {
    if r.None? then None else Some(ResolutionView(r.value))
  }

  function ServerView(serverId: string, nodes: Nodes, hash: string -> string): Compiler.View {
    Compiler.View(serverId, id => if id in nodes then Some(nodes[id].exposed) else None, hash,
                  (root, path) => View(ResolvePath(nodes, root, path)))
  }

  /** A client knows one root, the one whose manifest it holds. */
  function ClientView(serverId: string, manifest: Manifest, hash: string): Compiler.View {
    Compiler.View(serverId, id => if id == manifest.nodeId then Some(manifest.exposed) else None, _ => hash,
                  (root, path) => if root == manifest.nodeId then View(ClientResolve(manifest, path)) else None)
  }

  /** A client with the current manifest compiles a template to exactly the program the
      server would compile. */
  lemma DownloadedManifestCompilesAlike(env: Values.Env, serverId: string, nodes: Nodes, rank: map<string, nat>,
                                        hash: string -> string, root: string, template: Values.Value,
                                        p: Compiler.Program)
    requires WellFormed(nodes, rank) && root in nodes
    requires Values.Get(template, Values.RootId) == Some(Values.Text(root))
    ensures var client := ClientView(serverId, Build(nodes, rank, root), hash(root));
            Compiler.Compile(env, ServerView(serverId, nodes, hash), template) == Values.Ok(p) <==>
            Compiler.Compile(env, client, template) == Values.Ok(p)
  {
    hide Compiler.Compile, WellFormed, ResolvePath, ClientResolve, Compiler.ProperPath;
    var server, client := ServerView(serverId, nodes, hash), ClientView(serverId, Build(nodes, rank, root), hash(root));
    forall path
      ensures server.resolve(root, path) == client.resolve(root, path)
    {
      SameResolution(nodes, rank, root, path);
    }
    ExposureIsCopied(nodes, rank, root);
    Compiler.ViewsAgree(env, server, client, template, root, p);
  }

  lemma ExposureIsCopied(nodes: Nodes, rank: map<string, nat>, root: string)
    requires WellFormed(nodes, rank) && root in nodes
    ensures Build(nodes, rank, root).exposed == nodes[root].exposed
  {
  }

  lemma SameResolution(nodes: Nodes, rank: map<string, nat>, root: string, path: string)
    requires WellFormed(nodes, rank) && root in nodes
    ensures ResolvePath(nodes, root, path) == ClientResolve(Build(nodes, rank, root), path)
  {
    hide Resolve, ClientWalk, Build;
    ClientAgrees(nodes, rank, root, RolePath.Split(path));
  }

  /** What a client compiles against a current manifest, the server accepts. */
  lemma ClientArtifactIsAccepted(env: Values.Env, serverId: string, nodes: Nodes, rank: map<string, nat>,
                                 hash: string -> string, root: string, template: Values.Value)
    requires WellFormed(nodes, rank) && root in nodes
    requires Values.Get(template, Values.RootId) == Some(Values.Text(root))
    requires Compiler.Compile(env, ClientView(serverId, Build(nodes, rank, root), hash(root)), template).Ok?
    ensures var p := Compiler.Compile(env, ClientView(serverId, Build(nodes, rank, root), hash(root)), template).value;
            Artifact.Validate(env, ServerView(serverId, nodes, hash), Artifact.Render(env, p)).None?
  {
    hide Compiler.Compile, Compiler.ProgramOk, Compiler.TemplateDenotes, Artifact.Validate, Artifact.Render, Build,
         WellFormed;
    var p := Compiler.Compile(env, ClientView(serverId, Build(nodes, rank, root), hash(root)), template).value;
    var server := ServerView(serverId, nodes, hash);
    DownloadedManifestCompilesAlike(env, serverId, nodes, rank, hash, root, template, p);
    Compiler.CompileIff(env, server, template, p);
    Artifact.GoodProgramIsAccepted(env, server, p);
  }

  /** A client refuses every template for another root than the one whose manifest it holds,
      and resolves nothing in any other. */
  lemma ClientKnowsOneRoot(env: Values.Env, serverId: string, manifest: Manifest, hash: string, template: Values.Value,
                           root: string, path: string)
    requires Values.Get(template, Values.RootId) == Some(Values.Text(root)) && root != manifest.nodeId
    ensures var view := ClientView(serverId, manifest, hash);
            view.resolve(root, path).None? && Compiler.Compile(env, view, template).Err? &&
            forall p :: Compiler.ProgramOk(view, p) ==> p.rootId == manifest.nodeId
  {
    hide Compiler.PhasesOk, Compiler.CompilePhases, Compiler.ShortId;
  }

  // ---------- what an accepted track may do ----------

  /** The registry's own words for a track: its group exists on the physical node it is
      aimed at, supports its schema, has exactly its axes, and every sample and every step
      of the track respects what those axes declare. */
  ghost predicate SafeTrack(nodes: Nodes, track: Compiler.Track, group: Group) {
    track.target.physicalId in nodes && nodes[track.target.physicalId].Physical? &&
    group in nodes[track.target.physicalId].groups && group.groupId == track.target.groupId &&
    track.schema in group.commandSchemas && group.axes != [] && |track.axes| == |group.axes| &&
    (forall a :: 0 <= a < |group.axes| ==> Labels(track.axes[a], group.axes[a])) &&
    2 <= |track.samples| && track.samples[0].tUs == 0 &&
    (forall i, a :: 0 <= i < |track.samples| && 0 <= a < |group.axes| ==>
       |track.samples[i].values| == |group.axes| &&
       (track.reference == "absolute" ==>
          group.axes[a].minimum <= track.samples[i].values[a] <= group.axes[a].maximum)) &&
    (forall i, a :: 0 <= i < |track.samples| - 1 && 0 <= a < |group.axes| ==>
       SafeStep(track.samples[i], track.samples[i + 1], group.axes[a], a))
  }

  /** An axis is labelled with its name, its kind and the unit of that kind. */
  predicate Labels(tag: Compiler.AxisTag, axis: Axis) {
    tag.name == axis.axisId &&
    (axis.kind.Revolute? ==> tag.kind == "revolute" && tag.unit == "rad") &&
    (axis.kind.Prismatic? ==> tag.kind == "prismatic" && tag.unit == "m") &&
    (axis.kind.Normalized? ==> tag.kind == "normalized" && tag.unit == "1")
  }

  predicate SafeStep(before: Compiler.Sample, after: Compiler.Sample, axis: Axis, a: nat) {
    before.tUs < after.tUs && a < |before.values| && a < |after.values| &&
    (axis.maxVelocity.Some? ==>
       1.875 * Quintic.Abs(after.values[a] - before.values[a]) / Protocol.Seconds(after.tUs - before.tUs)
         <= axis.maxVelocity.value)
  }

  lemma {:induction false} ResolvedIsDeclared(nodes: Nodes, id: string, segments: seq<string>)
    requires Resolve(nodes, id, segments).Some?
    ensures var r := Resolve(nodes, id, segments).value;
            r.physicalId in nodes && nodes[r.physicalId].Physical? && r.group in nodes[r.physicalId].groups
    decreases |segments|
  {
    if nodes[id].Composite? {
      var c := ChildIndex(nodes[id].children, segments[0]);
      ResolvedIsDeclared(nodes, nodes[id].children[c.value].nodeId, segments[1..]);
    }
  }

  /** Every track of a program that the server accepts is safe in this sense. */
  lemma AcceptedTrackIsSafe(serverId: string, nodes: Nodes, hash: string -> string, root: string, track: Compiler.Track)
    returns (group: Group)
    requires Compiler.TrackOk(ServerView(serverId, nodes, hash), root, track)
    ensures SafeTrack(nodes, track, group)
  {
    hide Resolve, RolePath.Split, Compiler.ProperPath, Compiler.Dense, Compiler.Tags;
    ResolvedIsDeclared(nodes, root, RolePath.Split(track.rolePath));
    var r := ResolvePath(nodes, root, track.rolePath).value;
    group := r.group;
    var axes := ResolutionView(r).axes;
    TagsSay(axes, track.axes);
    DenseSays(Compiler.Command(axes, track.reference, track.schema), track.samples);
    forall i, a | 0 <= i < |track.samples| - 1 && 0 <= a < |group.axes|
      ensures SafeStep(track.samples[i], track.samples[i + 1], group.axes[a], a)
    {
      StepSays(Compiler.Command(axes, track.reference, track.schema), track.samples[i], track.samples[i + 1],
               group.axes[a], a);
    }
  }

  lemma TagsSay(axes: seq<Compiler.Axis>, tags: seq<Compiler.AxisTag>)
    requires tags == Compiler.Tags(axes)
    ensures |tags| == |axes|
    ensures forall a :: 0 <= a < |axes| ==> tags[a] == Compiler.AxisTag(axes[a].name, axes[a].kind, axes[a].unit)
  {
  }

  lemma DenseSays(cmd: Compiler.Command, samples: seq<Compiler.Sample>)
    requires Compiler.Dense(cmd, samples) && samples != []
    ensures samples[0].tUs == 0
    ensures forall i :: 0 <= i < |samples| ==> |samples[i].values| == |cmd.axes|
    ensures forall i, a :: 0 <= i < |samples| && 0 <= a < |cmd.axes| && cmd.reference == "absolute" ==>
              Compiler.InRange(cmd.axes[a], samples[i].values[a])
    ensures forall i :: 0 <= i < |samples| - 1 ==> Compiler.StepOk(cmd, samples[i], samples[i + 1])
  {
    hide Compiler.RatesOk, Compiler.Normalised, Compiler.InRange;
    forall i | 0 <= i < |samples|
      ensures |samples[i].values| == |cmd.axes| &&
              (cmd.reference == "absolute" ==>
                 forall a :: 0 <= a < |cmd.axes| ==> Compiler.InRange(cmd.axes[a], samples[i].values[a]))
    {
      assert Compiler.ValuesOk(cmd, samples[i].values);
    }
  }

  lemma StepSays(cmd: Compiler.Command, before: Compiler.Sample, after: Compiler.Sample, axis: Axis, a: nat)
    requires Compiler.StepOk(cmd, before, after) && a < |cmd.axes| && cmd.axes[a] == AxisView(axis)
    ensures SafeStep(before, after, axis, a)
  {
    assert Compiler.RatesOk(cmd.axes[a], before.values[a], after.values[a], after.tUs - before.tUs);
  }

  /** The same for any view of a registry, value by value and step by step: position limits
      of absolute tracks, normalised ranges, the zero start of relative tracks, and both
      rates. */
  lemma TrackLimits(view: Compiler.View, root: string, track: Compiler.Track, i: nat, a: nat)
    requires Compiler.TrackOk(view, root, track) && i < |track.samples|
    requires a < |view.resolve(root, track.rolePath).value.axes|
    ensures var axis, sample := view.resolve(root, track.rolePath).value.axes[a], track.samples[i];
            a < |sample.values| && var v := sample.values[a];
            (track.reference == "absolute" && axis.lower.Some? ==> axis.lower.value <= v) &&
            (track.reference == "absolute" && axis.upper.Some? ==> v <= axis.upper.value) &&
            (track.schema == "normalized_position_trajectory/v1" ==>
               if track.reference == "absolute" then 0.0 <= v <= 1.0 else -1.0 <= v <= 1.0) &&
            (i == 0 ==>
               sample.tUs == 0 && (track.reference == "phase_start_measured" ==> Quintic.Abs(v) <= 0.000000000001))
    ensures i + 1 < |track.samples| ==>
              AxisStep(view.resolve(root, track.rolePath).value.axes[a], track.samples[i], track.samples[i + 1], a)
  {
    hide Compiler.ProperPath, Compiler.Tags, Compiler.StepOk;
    var cmd := Compiler.Command(view.resolve(root, track.rolePath).value.axes, track.reference, track.schema);
    assert Compiler.ValuesOk(cmd, track.samples[i].values);
    if i + 1 < |track.samples| {
      assert Compiler.StepOk(cmd, track.samples[i], track.samples[i + 1]);
      AxisSteps(cmd, track.samples[i], track.samples[i + 1], a);
    }
  }

  predicate AxisStep(axis: Compiler.Axis, before: Compiler.Sample, after: Compiler.Sample, a: nat) {
    before.tUs < after.tUs && a < |before.values| && a < |after.values| &&
    var dt, way := Protocol.Seconds(after.tUs - before.tUs), Quintic.Abs(after.values[a] - before.values[a]);
    (axis.maxVelocity.Some? ==> 1.875 * way / dt <= axis.maxVelocity.value) &&
    (axis.maxAcceleration.Some? ==> 5.773503 * way / (dt * dt) <= axis.maxAcceleration.value)
  }

  lemma AxisSteps(cmd: Compiler.Command, before: Compiler.Sample, after: Compiler.Sample, a: nat)
    requires Compiler.StepOk(cmd, before, after) && a < |cmd.axes|
    ensures AxisStep(cmd.axes[a], before, after, a)
  {
    assert Compiler.RatesOk(cmd.axes[a], before.values[a], after.values[a], after.tUs - before.tUs);
  }
}
