/** A registry node that declares neither resources nor safety domains, and two accepted
    programs that share its worker (remote_robot/lease.py, remote_robot/registry.py). */
module Undeclared {
  import opened Wrappers
  import opened Registry
  import opened Walkers
  import opened Manifests
  import opened RegistryViews
  import opened Compiler
  import opened Requirements
  import RolePath
  import Values
  import Lease
  import Worker
  import Orchestrator
  import Fleet
  import Evidence
  import SharedWorkers

  const AXIS := Registry.Axis("x", Normalized, 0.0, 1.0, None)
  const NODE := Physical(true, [], [], [Registry.Group("a", [AXIS], [NORMALIZED_SCHEMA]),
                                        Registry.Group("b", [AXIS], [NORMALIZED_SCHEMA])])
  const NODES: Nodes := map["w" := NODE]
  const RANK: map<string, nat> := map["w" := 0]

  lemma RegistryIsProper()
    ensures WellFormed(NODES, RANK)
  {
    assert NODE.groups[0].groupId == "a" && NODE.groups[1].groupId == "b" && "a" != "b";
  }

  /** One group of the worker, at rest for a second. */
  function Still(group: string): Track {
    Track(group, Target("w", group), NORMALIZED_SCHEMA, ABSOLUTE, [AxisTag("x", "normalized", "1")],
          [Sample(0, [0.0]), Sample(1000000, [0.0])])
  }

  function ProgramFor(serverId: string, hash: string -> string, group: string): Program {
    Program("program", serverId, "w", hash("w"), [Phase("p", [Still(group)])])
  }

  lemma PathIsSegment(group: string)
    requires group == "a" || group == "b"
    ensures RolePath.Split(group) == [group]
  {
    RolePath.SplitJoin([group]);
    assert RolePath.Join([group]) == group;
  }

  lemma GroupResolves(group: string)
    requires group == "a" || group == "b"
    ensures ResolvePath(NODES, "w", group) == Some(Resolved("w", Registry.Group(group, [AXIS], [NORMALIZED_SCHEMA])))
  {
    PathIsSegment(group);
    RegistryIsProper();
    GroupFound(NODE.groups, if group == "a" then 0 else 1);
  }

  lemma StillIsOk(serverId: string, hash: string -> string, group: string)
    requires group == "a" || group == "b"
    ensures TrackOk(ServerView(serverId, NODES, hash), "w", Still(group))
  {
    GroupResolves(group);
    var r := ServerView(serverId, NODES, hash).resolve("w", group).value;
    assert r.axes == [AxisView(AXIS)];
    assert Tags(r.axes) == Still(group).axes;
    assert r.schemas == [NORMALIZED_SCHEMA] && r.schemas[0] == NORMALIZED_SCHEMA;
    StillIsDense(Command(r.axes, ABSOLUTE, NORMALIZED_SCHEMA), Still(group).samples);
  }

  lemma StillIsDense(cmd: Command, samples: seq<Sample>)
    requires cmd == Command([AxisView(AXIS)], ABSOLUTE, NORMALIZED_SCHEMA)
    requires samples == [Sample(0, [0.0]), Sample(1000000, [0.0])]
    ensures Dense(cmd, samples)
  {
    assert RatesOk(cmd.axes[0], 0.0, 0.0, 1000000);
    assert StepOk(cmd, samples[0], samples[1]);
    assert ValuesOk(cmd, [0.0]);
  }

  lemma ProgramIsOk(serverId: string, hash: string -> string, group: string)
    requires group == "a" || group == "b"
    ensures ProgramOk(ServerView(serverId, NODES, hash), ProgramFor(serverId, hash, group))
  {
    hide TrackOk, Still;
    StillIsOk(serverId, hash, group);
    assert ShortId("w") && ShortId("p") && ShortId("program");
  }

  /** The lease request names one leaf and nothing else. */
  lemma RequestIsLeaf(serverId: string, hash: string -> string, group: string)
    requires (group == "a" || group == "b") && WellFormed(NODES, RANK)
    ensures var p := ProgramFor(serverId, hash, group);
            AllTracks(p.phases) == [Still(group)] &&
            Gather(Build(NODES, RANK, "w"), AllTracks(p.phases)) == Some(Lease.Request({"w." + group}, {}, {}))
  {
    var p := ProgramFor(serverId, hash, group);
    assert AllTracks(p.phases[..0]) == [];
    assert AllTracks(p.phases) == [Still(group)];
    LocksNothing(group);
    assert LeafKey(Target("w", group)) == "w." + group;
    OneTrack(Build(NODES, RANK, "w"), Still(group));
  }

  lemma LocksNothing(group: string)
    requires (group == "a" || group == "b") && WellFormed(NODES, RANK)
    ensures TrackLocks(Build(NODES, RANK, "w"), Still(group)) == Some(Locks({}, {}))
  {
    PathIsSegment(group);
    var m := Build(NODES, RANK, "w");
    assert m == PhysicalManifest("w", true, [], [], NODE.groups);
    assert Own(m) == Locks({}, {});
  }

  lemma OneTrack(m: Manifest, track: Track)
    requires TrackLocks(m, track).Some?
    ensures var locks := TrackLocks(m, track).value;
            Gather(m, [track]) == Some(Lease.Request({LeafKey(track.target)}, locks.resources, locks.domains))
  {
    hide TrackLocks, LeafKey;
    assert [track][..0] == [];
    assert Gather(m, []) == Some(Lease.Request({}, {}, {}));
    var none: set<string>, locks := {}, TrackLocks(m, track).value;
    assert none + {LeafKey(track.target)} == {LeafKey(track.target)};
    assert none + locks.resources == locks.resources && none + locks.domains == locks.domains;
  }

  lemma Planned(env: Values.Env, serverId: string, hash: string -> string, run: string, group: string)
    requires LongDigests(env) && (group == "a" || group == "b") && WellFormed(NODES, RANK)
    ensures var p := ProgramFor(serverId, hash, group);
            var program := PlanProgram(env, run, p, None);
            Orchestrator.Everyone(program) == {"w"} && program.maxSkewUs == None &&
            Fleet.Admissible(program, Lease.Request({"w." + group}, {}, {})) &&
            FromRegistry(env, serverId, NODES, RANK, hash,
                         Fleet.Execute(run, program, Lease.Request({"w." + group}, {}, {}), 0))
  {
    hide Gather, PlanProgram, ProgramOk, LongDigests, WellFormed, Build, Fleet.Admissible, AllTracks,
         Orchestrator.Everyone;
    var p := ProgramFor(serverId, hash, group);
    ProgramIsOk(serverId, hash, group);
    RequestIsLeaf(serverId, hash, group);
    ParticipantsAreTargets(env, run, p, None);
    assert WorkersOf([Still(group)]) == {"w"};
    AcceptedProgramIsAdmissible(env, serverId, NODES, RANK, hash, run, p, None);
    SkewOfPlan(env, run, p);
  }

  lemma SkewOfPlan(env: Values.Env, run: string, p: Program)
    requires LongDigests(env)
    ensures PlanProgram(env, run, p, None).maxSkewUs == None
  {
  }

  lemma LeavesAreProper()
    ensures forall group :: group == "a" || group == "b" ==> Lease.Request({"w." + group}, {}, {}).Canonical()
    ensures Lease.CanonicalKey("A") && Lease.CanonicalKey("B")
    ensures Lease.Request({"w.a"}, {}, {}).Targets() == {Lease.Target(Lease.Leaf, "w.a")}
    ensures Lease.Request({"w.b"}, {}, {}).Targets() == {Lease.Target(Lease.Leaf, "w.b")}
    ensures "w.a" != "w.b"
  {
    assert "w.a"[2] != "w.b"[2];
    assert "w." + "a" == "w.a" && "w." + "b" == "w.b";
  }

  /** The declaration is needed: for a node that declares nothing, two programs accepted
      against the same registry are live at once and both involve its worker. */
  lemma UndeclaredWorkerIsShared(env: Values.Env, serverId: string, hash: string -> string)
    returns (f: Fleet.Fleet, events: seq<Fleet.Event>, a: string, b: string)
    requires LongDigests(env)
    ensures WellFormed(NODES, RANK) && "w" in NODES && forall guard :: !Declares(NODES, "w", guard)
    ensures Evidence.Pristine(f) && Fleet.Fresh(f)
    ensures forall i :: 0 <= i < |events| ==> FromRegistry(env, serverId, NODES, RANK, hash, events[i])
    ensures var g := Fleet.History(f, events);
            a != b && a in g.procs && b in g.procs && !g.procs[a].pc.Released? && !g.procs[b].pc.Released? &&
            "w" in Orchestrator.Everyone(g.procs[a].program) && "w" in Orchestrator.Everyone(g.procs[b].program)
  {
    hide FromRegistry, LongDigests, WellFormed, PlanProgram, Fleet.Admissible, Orchestrator.Everyone, Fleet.Next,
         Fleet.History, Lease.CanonicalKey, Lease.Request.Canonical, Lease.Request.Targets;
    RegistryIsProper();
    LeavesAreProper();
    assert "w." + "a" == "w.a" && "w." + "b" == "w.b";
    a, b := "A", "B";
    f := Fleet.Fleet(Lease.EMPTY, map["w" := Worker.Initial(256)], map[]);
    Planned(env, serverId, hash, a, "a");
    Planned(env, serverId, hash, b, "b");
    var pa := PlanProgram(env, a, ProgramFor(serverId, hash, "a"), None);
    var pb := PlanProgram(env, b, ProgramFor(serverId, hash, "b"), None);
    var ea := Fleet.Execute(a, pa, Lease.Request({"w.a"}, {}, {}), 0);
    var eb := Fleet.Execute(b, pb, Lease.Request({"w.b"}, {}, {}), 0);
    events := [ea, eb];
    SharedWorkers.Admitted(f, a, pa, Lease.Request({"w.a"}, {}, {}), 0);
    SharedWorkers.Admitted(Fleet.Next(f, ea), b, pb, Lease.Request({"w.b"}, {}, {}), 0);
    SharedWorkers.TwoEvents(f, ea, eb);
  }
}
