/** From an accepted program to its lease request and its worker plans
    (remote_robot/orchestrator.py), and what the fleet owes to them. */
module Requirements {
  import opened Wrappers
  import opened Registry
  import opened Walkers
  import opened Manifests
  import opened RegistryViews
  import opened Compiler
  import RolePath
  import Values
  import Artifact
  import Lease
  import Orchestrator
  import Fleet
  import Deliveries
  import Evidence
  import SharedWorkers
  import Answers

  // ---------- the lease request ----------

  function LeafKey(target: Target): string {
    target.physicalId + "." + target.groupId
  }

  function TrackLocks(m: Manifest, track: Track): Option<Locks> {
    LockWalk(m, RolePath.Split(track.rolePath), track.target.physicalId)
  }

  /** Everything the tracks need, or nothing when one of them does not fit the manifest. */
  function Gather(m: Manifest, tracks: seq<Track>): Option<Lease.Request>
    decreases |tracks|
  {
    if tracks == [] then Some(Lease.Request({}, {}, {}))
    else
      var n := |tracks| - 1;
      var before, locks := Gather(m, tracks[..n]), TrackLocks(m, tracks[n]);
      if before.None? || locks.None? then None
      else Some(Lease.Request(before.value.leaves + {LeafKey(tracks[n].target)},
                              before.value.resources + locks.value.resources,
                              before.value.domains + locks.value.domains))
  }

  function AllTracks(phases: seq<Phase>): seq<Track>
    decreases |phases|
  {
    if phases == [] then [] else AllTracks(phases[..|phases| - 1]) + phases[|phases| - 1].tracks
  }

  /** One phase's sequences add their leaf and their branch's locks to what is there. */
  method CollectPhase(m: Manifest, tracks: seq<Track>, into: Lease.Request, ghost done: seq<Track>)
    returns (r: Option<Lease.Request>)
    requires Gather(m, done) == Some(into)
    ensures r == Gather(m, done + tracks)
  {
    hide TrackLocks, Gather, LockWalk, LeafKey;
    var leaves, locks := into.leaves, Locks(into.resources, into.domains);
    assert done + tracks[..0] == done;
    for i := 0 to |tracks|
      invariant Gather(m, done + tracks[..i]) == Some(Lease.Request(leaves, locks.resources, locks.domains))
    {
      GatherMore(m, done + tracks[..i], tracks[i]);
      assert done + tracks[..i + 1] == done + tracks[..i] + [tracks[i]];
      leaves := leaves + {LeafKey(tracks[i].target)};
      var ok, more := CollectRoleBranchLocks(m, tracks[i].rolePath, tracks[i].target.physicalId, locks);
      WalkOf(m, tracks[i]);
      if !ok {
        assert (done + tracks)[..|done| + i + 1] == done + tracks[..i + 1];
        FailurePersists(m, done + tracks, |done| + i + 1);
        return None;
      }
      locks := more;
    }
    assert tracks[..|tracks|] == tracks;
    return Some(Lease.Request(leaves, locks.resources, locks.domains));
  }

  lemma GatherMore(m: Manifest, tracks: seq<Track>, track: Track)
    ensures var before, locks := Gather(m, tracks), TrackLocks(m, track);
            Gather(m, tracks + [track]) ==
            if before.None? || locks.None? then None
            else Some(Lease.Request(before.value.leaves + {LeafKey(track.target)},
                                    before.value.resources + locks.value.resources,
                                    before.value.domains + locks.value.domains))
  {
    hide TrackLocks, LeafKey;
    assert (tracks + [track])[..|tracks|] == tracks;
  }

  lemma WalkOf(m: Manifest, track: Track)
    ensures TrackLocks(m, track) == LockWalk(m, RolePath.Split(track.rolePath), track.target.physicalId)
  {
  }

  /** The loop over the outline's phases, filling three sets. */
  method LockRequirements(m: Manifest, phases: seq<Phase>) returns (r: Option<Lease.Request>)
    ensures r == Gather(m, AllTracks(phases))
  {
    hide Gather;
    var request := Lease.Request({}, {}, {});
    NothingToGather(m);
    for k := 0 to |phases|
      invariant Gather(m, AllTracks(phases[..k])) == Some(request)
    {
      assert phases[..k + 1][..k] == phases[..k];
      var more := CollectPhase(m, phases[k].tracks, request, AllTracks(phases[..k]));
      if more.None? {
        PhasesAreInOrder(phases, k + 1);
        assert AllTracks(phases)[..|AllTracks(phases[..k + 1])|] == AllTracks(phases[..k + 1]);
        FailurePersists(m, AllTracks(phases), |AllTracks(phases[..k + 1])|);
        return None;
      }
      request := more.value;
    }
    assert phases[..|phases|] == phases;
    return Some(request);
  }

  lemma NothingToGather(m: Manifest)
    ensures Gather(m, []) == Some(Lease.Request({}, {}, {}))
  {
  }

  lemma {:induction false} PhasesAreInOrder(phases: seq<Phase>, k: nat)
    requires k <= |phases|
    ensures AllTracks(phases[..k]) <= AllTracks(phases)
    decreases |phases|
  {
    if k == |phases| {
      assert phases[..k] == phases;
    } else {
      assert phases[..|phases| - 1][..k] == phases[..k];
      PhasesAreInOrder(phases[..|phases| - 1], k);
    }
  }

  lemma {:induction false} FailurePersists(m: Manifest, tracks: seq<Track>, n: nat)
    requires n <= |tracks| && Gather(m, tracks[..n]).None?
    ensures Gather(m, tracks).None?
    decreases |tracks|
  {
    hide TrackLocks;
    if n == |tracks| {
      assert tracks[..n] == tracks;
    } else {
      assert tracks[..|tracks| - 1][..n] == tracks[..n];
      FailurePersists(m, tracks[..|tracks| - 1], n);
    }
  }

  lemma {:induction false} TrackOfAll(phases: seq<Phase>, k: nat, i: nat)
    requires k < |phases| && i < |phases[k].tracks|
    ensures |AllTracks(phases[..k])| + i < |AllTracks(phases)| &&
            AllTracks(phases)[|AllTracks(phases[..k])| + i] == phases[k].tracks[i]
    decreases |phases|
  {
    var n := |phases| - 1;
    if k < n {
      assert phases[..n][..k] == phases[..k];
      TrackOfAll(phases[..n], k, i);
    }
  }

  ghost predicate Exactly(m: Manifest, tracks: seq<Track>, r: Lease.Request) {
    (forall x :: x in r.leaves <==> exists i :: 0 <= i < |tracks| && LeafKey(tracks[i].target) == x) &&
    (forall x :: x in r.resources <==> exists i :: 0 <= i < |tracks| && Contributes(m, tracks[i], x)) &&
    (forall x :: x in r.domains <==> exists i :: 0 <= i < |tracks| && ContributesDomain(m, tracks[i], x))
  }

  predicate Contributes(m: Manifest, track: Track, x: string) {
    TrackLocks(m, track).Some? && x in TrackLocks(m, track).value.resources
  }

  predicate ContributesDomain(m: Manifest, track: Track, x: string) {
    TrackLocks(m, track).Some? && x in TrackLocks(m, track).value.domains
  }

  /** The request exists exactly when every track's walk succeeds, and then holds exactly
      the commanded leaves and the resources and domains met on the way to them. */
  lemma {:induction false} GatherIsExact(m: Manifest, tracks: seq<Track>)
    ensures Gather(m, tracks).Some? <==> forall i :: 0 <= i < |tracks| ==> TrackLocks(m, tracks[i]).Some?
    ensures Gather(m, tracks).Some? ==> Exactly(m, tracks, Gather(m, tracks).value)
    decreases |tracks|
  {
    hide TrackLocks, Exactly;
    if tracks == [] {
      EmptyExactly(m);
    } else {
      var n := |tracks| - 1;
      GatherIsExact(m, tracks[..n]);
      if Gather(m, tracks).Some? {
        ExactlyGrows(m, tracks[..n], Gather(m, tracks[..n]).value, tracks[n]);
        assert tracks == tracks[..n] + [tracks[n]];
      }
    }
  }

  lemma EmptyExactly(m: Manifest)
    ensures Exactly(m, [], Lease.Request({}, {}, {}))
  {
  }

  lemma ExactlyGrows(m: Manifest, tracks: seq<Track>, r: Lease.Request, track: Track)
    requires Exactly(m, tracks, r) && TrackLocks(m, track).Some?
    ensures var locks := TrackLocks(m, track).value;
            Exactly(m, tracks + [track],
                    Lease.Request(r.leaves + {LeafKey(track.target)}, r.resources + locks.resources,
                                  r.domains + locks.domains))
  {
    hide TrackLocks, LeafKey;
    var more, n := tracks + [track], |tracks|;
    assert more[n] == track && forall i :: 0 <= i < n ==> more[i] == tracks[i];
  }

  // ---------- an accepted program's request ----------

  /** Every track of a good program passes the lock walk, which covers its worker's node. */
  lemma TrackIsLocked(serverId: string, nodes: Nodes, rank: map<string, nat>, hash: string -> string, root: string,
                      track: Track)
    requires WellFormed(nodes, rank) && root in nodes && TrackOk(ServerView(serverId, nodes, hash), root, track)
    ensures var locks := TrackLocks(Build(nodes, rank, root), track);
            locks.Some? && Covers(nodes, track.target.physicalId, locks.value)
  {
    hide Build, LockWalk, Resolve, Dense, WellFormed, Tags, ProperPath, Covers, PhysicalAt;
    var segments := RolePath.Split(track.rolePath);
    ResolveReaches(nodes, root, segments);
    LockWalkAgrees(nodes, rank, root, segments, track.target.physicalId);
  }

  lemma {:induction false} AllTracksOk(view: View, root: string, phases: seq<Phase>)
    requires forall k :: 0 <= k < |phases| ==> PhaseOk(view, root, phases[k])
    ensures forall i :: 0 <= i < |AllTracks(phases)| ==> TrackOk(view, root, AllTracks(phases)[i])
    decreases |phases|
  {
    hide TrackOk;
    if phases != [] { AllTracksOk(view, root, phases[..|phases| - 1]); }
  }

  /** A program accepted by the server always has a lease request; it names every leaf the
      program commands and covers every participating physical node. */
  lemma AcceptedProgramIsLocked(serverId: string, nodes: Nodes, rank: map<string, nat>, hash: string -> string,
                                p: Program)
    requires WellFormed(nodes, rank) && p.rootId in nodes && ProgramOk(ServerView(serverId, nodes, hash), p)
    ensures var r := Gather(Build(nodes, rank, p.rootId), AllTracks(p.phases));
            r.Some? && forall i :: 0 <= i < |AllTracks(p.phases)| ==>
              LeafKey(AllTracks(p.phases)[i].target) in r.value.leaves &&
              Covers(nodes, AllTracks(p.phases)[i].target.physicalId, Locks(r.value.resources, r.value.domains))
  {
    hide Build, TrackLocks, TrackOk, WellFormed, AllTracks, LeafKey, Gather;
    var m, tracks := Build(nodes, rank, p.rootId), AllTracks(p.phases);
    AllTracksOk(ServerView(serverId, nodes, hash), p.rootId, p.phases);
    forall i | 0 <= i < |tracks| { TrackIsLocked(serverId, nodes, rank, hash, p.rootId, tracks[i]); }
    GatherIsExact(m, tracks);
    var r := Gather(m, tracks).value;
    forall i | 0 <= i < |tracks|
      ensures Covers(nodes, tracks[i].target.physicalId, Locks(r.resources, r.domains))
    {
      var locks := TrackLocks(m, tracks[i]).value;
      assert forall x :: x in locks.resources ==> Contributes(m, tracks[i], x);
      assert forall x :: x in locks.domains ==> ContributesDomain(m, tracks[i], x);
    }
  }

  /** The lease request of an accepted program holds exactly the commanded leaves and what
      the nodes on the way to them declare, composites included. */
  lemma RequestIsExact(serverId: string, nodes: Nodes, rank: map<string, nat>, hash: string -> string, p: Program,
                       x: string)
    requires WellFormed(nodes, rank) && p.rootId in nodes && ProgramOk(ServerView(serverId, nodes, hash), p)
    ensures var r, tracks := Gather(Build(nodes, rank, p.rootId), AllTracks(p.phases)), AllTracks(p.phases);
            r.Some? &&
            (x in r.value.leaves <==> exists i :: 0 <= i < |tracks| && LeafKey(tracks[i].target) == x) &&
            (x in r.value.resources <==>
               exists i :: 0 <= i < |tracks| && OnBranch(nodes, BranchOf(nodes, p.rootId, tracks[i]), true, x)) &&
            (x in r.value.domains <==>
               exists i :: 0 <= i < |tracks| && OnBranch(nodes, BranchOf(nodes, p.rootId, tracks[i]), false, x))
  {
    hide Build, TrackLocks, TrackOk, WellFormed, AllTracks, LeafKey, Gather, OnBranch, BranchOf, Covers;
    var m, tracks := Build(nodes, rank, p.rootId), AllTracks(p.phases);
    AllTracksOk(ServerView(serverId, nodes, hash), p.rootId, p.phases);
    AcceptedProgramIsLocked(serverId, nodes, rank, hash, p);
    GatherIsExact(m, tracks);
    var r := Gather(m, tracks).value;
    forall i | 0 <= i < |tracks|
      ensures Contributes(m, tracks[i], x) <==> OnBranch(nodes, BranchOf(nodes, p.rootId, tracks[i]), true, x)
      ensures ContributesDomain(m, tracks[i], x) <==> OnBranch(nodes, BranchOf(nodes, p.rootId, tracks[i]), false, x)
    {
      TrackIsLocked(serverId, nodes, rank, hash, p.rootId, tracks[i]);
      TrackContributes(nodes, rank, p.rootId, tracks[i], x);
    }
  }

  function BranchOf(nodes: Nodes, root: string, track: Track): seq<string> {
    Branch(nodes, root, RolePath.Split(track.rolePath))
  }

  lemma TrackContributes(nodes: Nodes, rank: map<string, nat>, root: string, track: Track, x: string)
    requires WellFormed(nodes, rank) && root in nodes && TrackLocks(Build(nodes, rank, root), track).Some?
    ensures var m := Build(nodes, rank, root);
            (Contributes(m, track, x) <==> OnBranch(nodes, BranchOf(nodes, root, track), true, x)) &&
            (ContributesDomain(m, track, x) <==> OnBranch(nodes, BranchOf(nodes, root, track), false, x))
  {
    hide Build, WellFormed, OnBranch, LockWalk, Branch;
    LockWalkIsExact(nodes, rank, root, RolePath.Split(track.rolePath), track.target.physicalId, x);
  }

  // ---------- worker plans ----------

  /** The tracks of one worker, in the order of the phase. */
  function OnWorker(tracks: seq<Track>, worker: string): seq<Track>
    decreases |tracks|
  {
    if tracks == [] then []
    else
      var n := |tracks| - 1;
      OnWorker(tracks[..n], worker) + if tracks[n].target.physicalId == worker then [tracks[n]] else []
  }

  function WorkersOf(tracks: seq<Track>): set<string> {
    set track | track in tracks :: track.target.physicalId
  }

  /** Tracks grouped by worker, built as the source builds its dictionary of lists. */
  method WorkerPhasePlans(tracks: seq<Track>) returns (plans: map<string, seq<Track>>)
    ensures plans.Keys == WorkersOf(tracks)
    ensures forall w :: w in plans ==> plans[w] == OnWorker(tracks, w)
  {
    hide OnWorker, WorkersOf;
    plans := map[];
    assert WorkersOf(tracks[..0]) == {} by { NoWorkers(); }
    for i := 0 to |tracks|
      invariant plans.Keys == WorkersOf(tracks[..i])
      invariant forall w :: w in plans ==> plans[w] == OnWorker(tracks[..i], w)
    {
      forall w { OneMore(tracks, i, w); }
      var worker := tracks[i].target.physicalId;
      var before := if worker in plans then plans[worker] else [];
      if worker !in plans { NoTracks(tracks[..i], worker); }
      WorkersGrow(tracks, i);
      plans := plans[worker := before + [tracks[i]]];
    }
    assert tracks[..|tracks|] == tracks;
  }

  lemma NoWorkers()
    ensures WorkersOf([]) == {}
  {
  }

  lemma OneMore(tracks: seq<Track>, i: nat, worker: string)
    requires i < |tracks|
    ensures OnWorker(tracks[..i + 1], worker) ==
            OnWorker(tracks[..i], worker) + if tracks[i].target.physicalId == worker then [tracks[i]] else []
  {
    assert tracks[..i + 1][..i] == tracks[..i];
  }

  lemma {:induction false} NoTracks(tracks: seq<Track>, worker: string)
    requires worker !in WorkersOf(tracks)
    ensures OnWorker(tracks, worker) == []
    decreases |tracks|
  {
    if tracks != [] {
      assert tracks[|tracks| - 1] in tracks;
      NoTracks(tracks[..|tracks| - 1], worker);
    }
  }

  lemma WorkersGrow(tracks: seq<Track>, i: nat)
    requires i < |tracks|
    ensures WorkersOf(tracks[..i + 1]) == WorkersOf(tracks[..i]) + {tracks[i].target.physicalId}
  {
    assert tracks[..i + 1] == tracks[..i] + [tracks[i]];
  }

  /** Grouping loses and duplicates nothing: each worker receives each of its own tracks
      as often as the phase holds it, and no other worker's. */
  lemma {:induction false} GroupingConserves(tracks: seq<Track>, worker: string, track: Track)
    ensures multiset(OnWorker(tracks, worker))[track] ==
            if track.target.physicalId == worker then multiset(tracks)[track] else 0
    decreases |tracks|
  {
    if tracks != [] {
      var n := |tracks| - 1;
      GroupingConserves(tracks[..n], worker, track);
      assert tracks == tracks[..n] + [tracks[n]];
    }
  }

  // ---------- execution ids ----------

  function Digits(n: nat): (s: string)
    ensures s != ""
  {
    var last := ['0' + (n % 10) as char];
    if n < 10 then last else Digits(n / 10) + last
  }

  lemma {:induction false} DigitsAreInjective(a: nat, b: nat)
    requires Digits(a) == Digits(b)
    ensures a == b
  {
    var s, t := Digits(a), Digits(b);
    assert s[|s| - 1] == t[|t| - 1];
    assert a % 10 == b % 10;
    if 10 <= a && 10 <= b {
      assert s[..|s| - 1] == Digits(a / 10) && t[..|t| - 1] == Digits(b / 10);
      DigitsAreInjective(a / 10, b / 10);
    }
  }

  function ExecutionId(run: string, index: nat, sha: string): string
    requires 12 <= |sha|
  {
    run + ":" + Digits(index) + ":" + sha[..12]
  }

  /** Two phases of a run never share an execution id, even with equal payloads, so an
      event left over from one phase cannot be taken for another's. */
  lemma ExecutionIdsDiffer(run: string, i: nat, k: nat, sha: string, sha': string)
    requires 12 <= |sha| && 12 <= |sha'| && i != k
    ensures ExecutionId(run, i, sha) != ExecutionId(run, k, sha')
  {
    if ExecutionId(run, i, sha) == ExecutionId(run, k, sha') {
      var a, b := ExecutionId(run, i, sha), ExecutionId(run, k, sha');
      assert a[|run| + 1..|a| - 13] == Digits(i);
      assert b[|run| + 1..|b| - 13] == Digits(k);
      DigitsAreInjective(i, k);
    }
  }

  // ---------- the program as the orchestrator runs it ----------

  function Leaves(tracks: seq<Track>, worker: string): set<string> {
    set track | track in OnWorker(tracks, worker) :: LeafKey(track.target)
  }

  function PlanPhase(env: Values.Env, run: string, k: nat, phase: Phase): Orchestrator.Phase
    requires 12 <= |env.digest(Values.Object(Artifact.PhaseFields(env, phase)))|
  {
    var sha := env.digest(Values.Object(Artifact.PhaseFields(env, phase)));
    Orchestrator.Phase(phase.phaseId, ExecutionId(run, k, sha), Longest(phase.tracks),
                       map w | w in WorkersOf(phase.tracks) :: Leaves(phase.tracks, w))
  }

  ghost predicate LongDigests(env: Values.Env) {
    forall v :: 12 <= |env.digest(v)|
  }

  ghost function PlanProgram(env: Values.Env, run: string, p: Program, maxSkewUs: Option<int>): Orchestrator.Program
    requires LongDigests(env)
  {
    Orchestrator.Program(seq(|p.phases|, k requires 0 <= k < |p.phases| => PlanPhase(env, run, k, p.phases[k])),
                         maxSkewUs)
  }

  /** Planned programs meet the hypothesis under which a completed phase is known to have
      happened on every worker. */
  lemma PlannedExecutionsDiffer(env: Values.Env, run: string, p: Program, maxSkewUs: Option<int>)
    requires LongDigests(env)
    ensures Evidence.DistinctExecutions(PlanProgram(env, run, p, maxSkewUs))
  {
    hide ExecutionId, Artifact.PhaseFields, Longest, Leaves;
    var phases := PlanProgram(env, run, p, maxSkewUs).phases;
    forall i, k | 0 <= i < k < |phases|
      ensures phases[i].executionId != phases[k].executionId
    {
      var a := env.digest(Values.Object(Artifact.PhaseFields(env, p.phases[i])));
      var b := env.digest(Values.Object(Artifact.PhaseFields(env, p.phases[k])));
      ExecutionIdsDiffer(run, i, k, a, b);
    }
  }

  lemma {:induction false} OnWorkerIsPart(tracks: seq<Track>, worker: string, track: Track)
    ensures track in OnWorker(tracks, worker) <==> track in tracks && track.target.physicalId == worker
    decreases |tracks|
  {
    if tracks != [] {
      var n := |tracks| - 1;
      OnWorkerIsPart(tracks[..n], worker, track);
      assert tracks == tracks[..n] + [tracks[n]];
    }
  }

  lemma PhaseTracks(phases: seq<Phase>, k: nat, track: Track)
    requires k < |phases| && track in phases[k].tracks
    ensures track in AllTracks(phases)
  {
    var i :| 0 <= i < |phases[k].tracks| && phases[k].tracks[i] == track;
    TrackOfAll(phases, k, i);
  }

  /** What the fleet assumes of an admitted program holds for every accepted one. */
  lemma AcceptedProgramIsAdmissible(env: Values.Env, serverId: string, nodes: Nodes, rank: map<string, nat>,
                                    hash: string -> string, run: string, p: Program, maxSkewUs: Option<int>)
    requires LongDigests(env) && WellFormed(nodes, rank) && p.rootId in nodes &&
             ProgramOk(ServerView(serverId, nodes, hash), p)
    ensures var r := Gather(Build(nodes, rank, p.rootId), AllTracks(p.phases));
            r.Some? && Fleet.Admissible(PlanProgram(env, run, p, maxSkewUs), r.value)
  {
    hide Gather, AllTracks, OnWorker, Build, WellFormed, LeafKey, Covers, Artifact.PhaseFields, TracksOk, Longest;
    AcceptedProgramIsLocked(serverId, nodes, rank, hash, p);
    var r := Gather(Build(nodes, rank, p.rootId), AllTracks(p.phases)).value;
    forall k | 0 <= k < |p.phases|
      ensures p.phases[k].phaseId != ""
    {
      assert PhaseOk(ServerView(serverId, nodes, hash), p.rootId, p.phases[k]);
    }
    forall k, w | 0 <= k < |p.phases| && w in WorkersOf(p.phases[k].tracks)
      ensures Leaves(p.phases[k].tracks, w) <= r.leaves
    {
      LeavesAreNamed(p, k, w, r.leaves);
    }
  }

  lemma LeavesAreNamed(p: Program, k: nat, w: string, leaves: set<string>)
    requires k < |p.phases|
    requires forall i :: 0 <= i < |AllTracks(p.phases)| ==> LeafKey(AllTracks(p.phases)[i].target) in leaves
    ensures Leaves(p.phases[k].tracks, w) <= leaves
  {
    hide LeafKey, OnWorker, AllTracks;
    forall track | track in OnWorker(p.phases[k].tracks, w)
      ensures LeafKey(track.target) in leaves
    {
      OnWorkerIsPart(p.phases[k].tracks, w, track);
      PhaseTracks(p.phases, k, track);
    }
  }

  // ---------- exclusive workers ----------

  /** What a physical node declares that every lease on it must hold. */
  ghost predicate Declares(nodes: Nodes, worker: string, guard: Lease.Target) {
    worker in nodes &&
    ((guard.kind.Resource? && guard.key in nodes[worker].resources) ||
     (guard.kind.SafetyDomain? && guard.key in nodes[worker].domains))
  }

  /** The start skew limit that a root's manifest declares; only composites have one. */
  function SkewLimit(m: Manifest): Option<int> {
    if m.CompositeManifest? then m.maxStartSkewUs else None
  }

  /** The event submits a program accepted against this registry, with the request and the
      plan derived from it. */
  ghost predicate FromRegistry(env: Values.Env, serverId: string, nodes: Nodes, rank: map<string, nat>,
                               hash: string -> string, e: Fleet.Event)
    requires LongDigests(env) && WellFormed(nodes, rank)
  {
    e.Execute? ==> exists p: Program ::
      p.rootId in nodes && ProgramOk(ServerView(serverId, nodes, hash), p) &&
      Gather(Build(nodes, rank, p.rootId), AllTracks(p.phases)) == Some(e.request) &&
      e.program == PlanProgram(env, e.run, p, SkewLimit(Build(nodes, rank, p.rootId)))
  }

  lemma {:induction false} WorkerHasTrack(env: Values.Env, run: string, p: Program, skew: Option<int>, w: string,
                                          k: nat) returns (i: nat)
    requires LongDigests(env) && k <= |p.phases|
    requires w in Orchestrator.Participants(PlanProgram(env, run, p, skew).phases[k..])
    ensures i < |AllTracks(p.phases)| && AllTracks(p.phases)[i].target.physicalId == w
    decreases |p.phases| - k
  {
    hide AllTracks, ExecutionId, Longest, Artifact.PhaseFields, Leaves;
    var phases := PlanProgram(env, run, p, skew).phases;
    assert phases[k..][0] == phases[k] && phases[k..][1..] == phases[k + 1..];
    if w in phases[k].workers {
      var track :| track in p.phases[k].tracks && track.target.physicalId == w;
      PhaseTracks(p.phases, k, track);
      i :| 0 <= i < |AllTracks(p.phases)| && AllTracks(p.phases)[i] == track;
    } else {
      i := WorkerHasTrack(env, run, p, skew, w, k + 1);
    }
  }

  lemma {:induction false} TrackHasPhase(phases: seq<Phase>, track: Track) returns (k: nat)
    requires track in AllTracks(phases)
    ensures k < |phases| && track in phases[k].tracks
    decreases |phases|
  {
    var n := |phases| - 1;
    if track in phases[n].tracks { return n; }
    k := TrackHasPhase(phases[..n], track);
  }

  /** The source's set of worker ids, which must all be registered before a lease is asked for. */
  method ParticipantWorkerIds(phases: seq<Phase>) returns (ids: set<string>)
    ensures ids == WorkersOf(AllTracks(phases))
  {
    ids := {};
    for k := 0 to |phases|
      invariant ids == WorkersOf(AllTracks(phases[..k]))
    {
      assert phases[..k + 1][..k] == phases[..k];
      var tracks := phases[k].tracks;
      for i := 0 to |tracks|
        invariant ids == WorkersOf(AllTracks(phases[..k])) + WorkersOf(tracks[..i])
      {
        WorkersGrow(tracks, i);
        ids := ids + {tracks[i].target.physicalId};
      }
      assert tracks[..|tracks|] == tracks;
    }
    assert phases[..|phases|] == phases;
  }

  /** Exactly these workers take part in the run that is planned. */
  lemma ParticipantsAreTargets(env: Values.Env, run: string, p: Program, skew: Option<int>)
    requires LongDigests(env)
    ensures Orchestrator.Everyone(PlanProgram(env, run, p, skew)) == WorkersOf(AllTracks(p.phases))
  {
    hide AllTracks, LongDigests, Orchestrator.Participants, Leaves, ExecutionId, Longest, Artifact.PhaseFields;
    var phases := PlanProgram(env, run, p, skew).phases;
    assert phases[0..] == phases;
    forall w | w in Orchestrator.Participants(phases)
      ensures w in WorkersOf(AllTracks(p.phases))
    {
      var i := WorkerHasTrack(env, run, p, skew, w, 0);
      assert AllTracks(p.phases)[i] in AllTracks(p.phases);
    }
    forall track | track in AllTracks(p.phases)
      ensures track.target.physicalId in Orchestrator.Participants(phases)
    {
      var k := TrackHasPhase(p.phases, track);
      assert phases[k].workers.Keys == WorkersOf(p.phases[k].tracks);
      Fleet.InEveryone(phases, k, track.target.physicalId);
    }
  }

  lemma AcceptedAsksForGuard(env: Values.Env, serverId: string, nodes: Nodes, rank: map<string, nat>,
                             hash: string -> string, e: Fleet.Event, w: string, guard: Lease.Target)
    requires LongDigests(env) && WellFormed(nodes, rank) && FromRegistry(env, serverId, nodes, rank, hash, e)
    requires Declares(nodes, w, guard)
    ensures Fleet.AsksForGuard(e, w, guard)
  {
    hide Gather, AllTracks, Build, WellFormed, ProgramOk, LeafKey, LongDigests, PlanProgram, Orchestrator.Participants;
    if e.Execute? && w in Orchestrator.Everyone(e.program) {
      var p: Program :|
        p.rootId in nodes && ProgramOk(ServerView(serverId, nodes, hash), p) &&
        Gather(Build(nodes, rank, p.rootId), AllTracks(p.phases)) == Some(e.request) &&
        e.program == PlanProgram(env, e.run, p, SkewLimit(Build(nodes, rank, p.rootId)));
      AcceptedProgramIsLocked(serverId, nodes, rank, hash, p);
      var skew := SkewLimit(Build(nodes, rank, p.rootId));
      var phases := PlanProgram(env, e.run, p, skew).phases;
      assert phases[0..] == phases;
      var i := WorkerHasTrack(env, e.run, p, skew, w, 0);
      assert Covers(nodes, w, Locks(e.request.resources, e.request.domains));
    }
  }

  /** Over every history of a fleet whose programs were accepted against one registry: a
      worker whose physical node declares a resource or a safety domain is never involved
      in two live runs, whichever roots those were compiled for. */
  lemma DeclaredWorkerIsExclusive(env: Values.Env, serverId: string, nodes: Nodes, rank: map<string, nat>,
                                  hash: string -> string,
                                  f: Fleet.Fleet, events: seq<Fleet.Event>, w: string, guard: Lease.Target, a: string,
                                  b: string)
    requires LongDigests(env) && WellFormed(nodes, rank) && Declares(nodes, w, guard) && Fleet.Fresh(f)
    requires forall i :: 0 <= i < |events| ==> FromRegistry(env, serverId, nodes, rank, hash, events[i])
    requires var g := Fleet.History(f, events);
             a in g.procs && !g.procs[a].pc.Released? && w in Orchestrator.Everyone(g.procs[a].program) &&
             b in g.procs && !g.procs[b].pc.Released? && w in Orchestrator.Everyone(g.procs[b].program)
    ensures a == b
  {
    hide Fleet.History, FromRegistry, LongDigests, WellFormed, Declares, Fleet.Fresh, Fleet.AsksForGuard,
         Orchestrator.Everyone;
    forall i | 0 <= i < |events| { AcceptedAsksForGuard(env, serverId, nodes, rank, hash, events[i], w, guard); }
    Fleet.OneRunPerWorker(f, events, w, guard, a, b);
  }

  lemma AcceptedIsDistinct(env: Values.Env, serverId: string, nodes: Nodes, rank: map<string, nat>,
                           hash: string -> string, e: Fleet.Event)
    requires LongDigests(env) && WellFormed(nodes, rank) && FromRegistry(env, serverId, nodes, rank, hash, e)
    ensures Evidence.Distinct(e)
  {
    hide Gather, AllTracks, Build, WellFormed, ProgramOk, LongDigests, PlanProgram, Evidence.DistinctExecutions;
    if e.Execute? {
      var p: Program :|
        p.rootId in nodes && ProgramOk(ServerView(serverId, nodes, hash), p) &&
        Gather(Build(nodes, rank, p.rootId), AllTracks(p.phases)) == Some(e.request) &&
        e.program == PlanProgram(env, e.run, p, SkewLimit(Build(nodes, rank, p.rootId)));
      PlannedExecutionsDiffer(env, e.run, p, SkewLimit(Build(nodes, rank, p.rootId)));
    }
  }

  /** Over every history of programs accepted against one registry, a worker whose node
      declares a resource or a safety domain never begins a phase of a run unless that run
      started it, after all workers of the phase were prepared. */
  lemma DeclaredBarrierHolds(env: Values.Env, serverId: string, nodes: Nodes, rank: map<string, nat>,
                             hash: string -> string, f: Fleet.Fleet, events: seq<Fleet.Event>, w: string,
                             guard: Lease.Target, run: string, k: nat)
    requires LongDigests(env) && WellFormed(nodes, rank) && Declares(nodes, w, guard)
    requires Evidence.Pristine(f) && w in f.workers
    requires forall i :: 0 <= i < |events| ==> FromRegistry(env, serverId, nodes, rank, hash, events[i])
    requires var g := Fleet.History(f, events);
             run in g.procs && w in g.workers && k < |g.procs[run].program.phases| &&
             Deliveries.Begun(g.workers[w], Evidence.IdOf(g.procs[run], run, k))
    ensures var p := Fleet.History(f, events).procs[run];
            Orchestrator.DidStart(w, k) in p.trace && Orchestrator.AllPrepared(p.program, k, {}, p.trace)
  {
    hide Fleet.History, FromRegistry, LongDigests, WellFormed, Declares, Evidence.Pristine, Fleet.AsksForGuard,
         Evidence.Distinct, Deliveries.Begun;
    forall i | 0 <= i < |events|
      ensures Evidence.Distinct(events[i]) && Fleet.AsksForGuard(events[i], w, guard)
    {
      AcceptedAsksForGuard(env, serverId, nodes, rank, hash, events[i], w, guard);
      AcceptedIsDistinct(env, serverId, nodes, rank, hash, events[i]);
    }
    SharedWorkers.GuardedBarrierHolds(f, events, w, guard, run, k);
  }

  /** Over every history of programs accepted against one registry, a completed phase of a
      run under a composite root started together: its workers were woken into it within
      the start skew that the root declares. */
  lemma DeclaredSkewHolds(env: Values.Env, serverId: string, nodes: Nodes, rank: map<string, nat>,
                          hash: string -> string, f: Fleet.Fleet, events: seq<Fleet.Event>, run: string, k: nat)
    returns (p: Program, starts: map<string, int>)
    requires LongDigests(env) && WellFormed(nodes, rank) && Evidence.Pristine(f)
    requires forall i :: 0 <= i < |events| ==> FromRegistry(env, serverId, nodes, rank, hash, events[i])
    requires var g := Fleet.History(f, events);
             run in g.procs && Orchestrator.PhaseCompleted(k) in g.procs[run].journal
    ensures p.rootId in nodes && ProgramOk(ServerView(serverId, nodes, hash), p) && k < |p.phases|
    ensures var proc := Fleet.History(f, events).procs[run];
            proc.program == PlanProgram(env, run, p, SkewLimit(Build(nodes, rank, p.rootId))) &&
            k < |proc.program.phases| &&
            (forall w :: w in starts ==> Answers.Woke(f, events, w, Evidence.IdOf(proc, run, k), starts[w]))
    ensures starts.Keys == WorkersOf(p.phases[k].tracks)
    ensures nodes[p.rootId].Composite? && nodes[p.rootId].maxStartSkewUs.Some? ==>
              forall a, b :: a in starts && b in starts ==>
                starts[a] - starts[b] <= nodes[p.rootId].maxStartSkewUs.value
  {
    hide Fleet.History, FromRegistry, LongDigests, WellFormed, Evidence.Pristine, Evidence.Distinct, ProgramOk, Build,
         Answers.Woke, Gather, AllTracks, PlanProgram;
    forall i | 0 <= i < |events|
      ensures Evidence.Distinct(events[i])
    {
      AcceptedIsDistinct(env, serverId, nodes, rank, hash, events[i]);
    }
    var proc := Fleet.History(f, events).procs[run];
    starts := Answers.CompletedPhaseStartedTogether(f, events, run, k);
    Answers.ProgramsAreSubmitted(f, events, run);
    NoRunsYet(f);
    var i :| 0 <= i < |events| && events[i].Execute? && events[i].run == run && events[i].program == proc.program;
    p := ProgramBehind(env, serverId, nodes, rank, hash, events[i]);
    PlannedPhase(env, run, p, SkewLimit(Build(nodes, rank, p.rootId)), k);
    BuildOwn(nodes, rank, p.rootId);
  }

  lemma NoRunsYet(f: Fleet.Fleet)
    requires Evidence.Pristine(f)
    ensures f.procs == map[]
  {
  }

  lemma ProgramBehind(env: Values.Env, serverId: string, nodes: Nodes, rank: map<string, nat>, hash: string -> string,
                      e: Fleet.Event) returns (p: Program)
    requires LongDigests(env) && WellFormed(nodes, rank) && FromRegistry(env, serverId, nodes, rank, hash, e) &&
             e.Execute?
    ensures p.rootId in nodes && ProgramOk(ServerView(serverId, nodes, hash), p)
    ensures e.program == PlanProgram(env, e.run, p, SkewLimit(Build(nodes, rank, p.rootId)))
  {
    hide Gather, AllTracks, Build, WellFormed, ProgramOk, LongDigests, PlanProgram;
    p :| p.rootId in nodes && ProgramOk(ServerView(serverId, nodes, hash), p) &&
         Gather(Build(nodes, rank, p.rootId), AllTracks(p.phases)) == Some(e.request) &&
         e.program == PlanProgram(env, e.run, p, SkewLimit(Build(nodes, rank, p.rootId)));
  }

  /** Some track on this worker commands this leaf. */
  predicate Commands(tracks: seq<Track>, w: string, x: string) {
    exists i :: 0 <= i < |tracks| && tracks[i].target.physicalId == w && LeafKey(tracks[i].target) == x
  }

  /** A planned phase says what the compiled one says: its id, its workers with exactly the
      leaves their tracks command, and a duration that bounds every track and is reached. */
  lemma PlannedPhase(env: Values.Env, run: string, p: Program, skew: Option<int>, k: nat)
    requires LongDigests(env) && k < |PlanProgram(env, run, p, skew).phases|
    ensures var program := PlanProgram(env, run, p, skew);
            program.maxSkewUs == skew && |program.phases| == |p.phases| &&
            var phase, tracks := program.phases[k], p.phases[k].tracks;
            phase.phaseId == p.phases[k].phaseId && phase.workers.Keys == WorkersOf(tracks) &&
            Orchestrator.WorkersOf(program, k) == WorkersOf(tracks) &&
            (forall w, x :: w in phase.workers ==> (x in phase.workers[w] <==> Commands(tracks, w, x))) &&
            (forall i :: 0 <= i < |tracks| ==> TrackDuration(tracks[i]) <= phase.durationUs) &&
            (phase.durationUs == 0 || exists i :: 0 <= i < |tracks| && TrackDuration(tracks[i]) == phase.durationUs)
  {
    hide ExecutionId, Artifact.PhaseFields, LeafKey, OnWorker, TrackDuration, LongDigests;
    var phase, tracks := PlanProgram(env, run, p, skew).phases[k], p.phases[k].tracks;
    PlanIs(env, run, p, skew, k);
    forall w, x | w in phase.workers
      ensures x in phase.workers[w] <==> Commands(tracks, w, x)
    {
      LeavesExactly(tracks, w, x);
    }
  }

  lemma PlanIs(env: Values.Env, run: string, p: Program, skew: Option<int>, k: nat)
    requires LongDigests(env) && k < |PlanProgram(env, run, p, skew).phases|
    ensures k < |p.phases| && 12 <= |env.digest(Values.Object(Artifact.PhaseFields(env, p.phases[k])))|
    ensures PlanProgram(env, run, p, skew).phases[k] == PlanPhase(env, run, k, p.phases[k])
  {
    hide Artifact.PhaseFields;
  }

  lemma LeavesExactly(tracks: seq<Track>, w: string, x: string)
    ensures x in Leaves(tracks, w) <==> Commands(tracks, w, x)
  {
    hide LeafKey, OnWorker;
    if x in Leaves(tracks, w) {
      var track :| track in OnWorker(tracks, w) && LeafKey(track.target) == x;
      OnWorkerIsPart(tracks, w, track);
      var i :| 0 <= i < |tracks| && tracks[i] == track;
    }
    if Commands(tracks, w, x) {
      var i :| 0 <= i < |tracks| && tracks[i].target.physicalId == w && LeafKey(tracks[i].target) == x;
      OnWorkerIsPart(tracks, w, tracks[i]);
    }
  }

  /** Two leaves never share a lease key, as no group id has a dot in it. */
  lemma LeafKeysDiffer(a: Target, b: Target)
    requires LeafKey(a) == LeafKey(b) && RolePath.DotFree(a.groupId) && RolePath.DotFree(b.groupId)
    ensures a == b
  {
    var key, n, m := LeafKey(a), |a.groupId|, |b.groupId|;
    assert key[|key| - n..] == a.groupId && key[|key| - m..] == b.groupId;
    assert key[|key| - n - 1] == '.' && key[|key| - m - 1] == '.';
    assert key[..|key| - n - 1] == a.physicalId && key[..|key| - m - 1] == b.physicalId;
  }
}
