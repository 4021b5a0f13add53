/** What a compiled artifact says, and why one is refused (remote_robot/program.py). */
module ArtifactFacts {
  import opened Wrappers
  import opened Values
  import opened Compiler
  import opened Artifact

  // ---------- what a rendered program says ----------

  function Items(v: Option<Value>): seq<Value> {
    if v.Some? && v.value.Array? then v.value.items else []
  }

  function PhaseIn(body: Value, k: nat): Value {
    if k < |Items(Get(body, Phases))| then Items(Get(body, Phases))[k] else Null
  }

  function OutlineIn(body: Value, k: nat): Value {
    var outline := Get(body, Outline);
    if outline.Some? && k < |Items(Get(outline.value, Phases))| then Items(Get(outline.value, Phases))[k] else Null
  }

  /** Everything but the digest. */
  function Unsealed(v: Value): Value {
    if v.Object? then Object(v.fields - {Sha}) else v
  }

  /** The header of a body names the program, its server, its root and the manifest. */
  lemma HeaderSays(env: Env, p: Program)
    ensures var body := BodyOf(env, p);
            Get(body, Format) == Some(Text("robot-program")) && Get(body, Version) == Some(Int(2)) &&
            Get(body, ProgramId) == Some(Text(p.programId)) && Get(body, ServerId) == Some(Text(p.serverId)) &&
            Get(body, RootId) == Some(Text(p.rootId)) && Get(body, ManifestHash) == Some(Text(p.manifestHash)) &&
            |Items(Get(body, Phases))| == |p.phases| && Get(body, Outline).Some? &&
            |Items(Get(Get(body, Outline).value, Phases))| == |p.phases| &&
            Get(Get(body, Outline).value, PhaseCount) == Some(Int(|p.phases|)) &&
            Get(body, OutlineSha) == Some(Text(env.digest(Get(body, Outline).value)))
  {
    hide PhaseValue, PhaseOutline;
  }

  lemma PhaseIsIn(env: Env, p: Program, k: nat)
    requires k < |p.phases|
    ensures PhaseIn(BodyOf(env, p), k) == PhaseValue(env, p.phases[k])
    ensures OutlineIn(BodyOf(env, p), k) == PhaseOutline(env, p.phases[k])
  {
    hide PhaseValue, PhaseOutline;
  }

  lemma SealSays(env: Env, fields: map<Field, Value>)
    requires Sha !in fields
    ensures var v := Seal(env, fields);
            (forall f :: f != Sha ==> Get(v, f) == Get(Object(fields), f)) &&
            Get(v, Sha) == Some(Text(env.digest(Object(fields)))) && Unsealed(v) == Object(fields)
  {
    assert Seal(env, fields).fields - {Sha} == fields;
  }

  lemma PhaseValueSays(env: Env, phase: Phase)
    ensures var v := PhaseValue(env, phase);
            Get(v, PhaseId) == Some(Text(phase.phaseId)) && Get(v, DurationUs) == Some(Int(Longest(phase.tracks))) &&
            Get(v, Completion) == Some(DEFAULT_COMPLETION) && Get(v, Transitions) == Some(Array([])) &&
            Get(v, Sequences) == Some(TrackValues(env, phase.tracks)) &&
            Get(v, Sha) == Some(Text(env.digest(Unsealed(v)))) && Unsealed(v) == Object(PhaseFields(env, phase))
  {
    hide Seal, Longest, TrackValues, Unsealed;
    SealSays(env, PhaseFields(env, phase));
  }

  function ParticipantsOf(tracks: seq<Track>): Value {
    Array(seq(|tracks|, i requires 0 <= i < |tracks| => TargetValue(tracks[i].target)))
  }

  function OutlinesOf(env: Env, tracks: seq<Track>): Value {
    Array(seq(|tracks|, i requires 0 <= i < |tracks| => TrackOutline(env, tracks[i])))
  }

  lemma PhaseOutlineSays(env: Env, phase: Phase)
    ensures var v := PhaseOutline(env, phase);
            Get(v, PhaseId) == Some(Text(phase.phaseId)) && Get(v, DurationUs) == Some(Int(Longest(phase.tracks))) &&
            Get(v, Transitions) == Some(Array([])) &&
            Get(v, PayloadSha) == Some(Text(env.digest(Object(PhaseFields(env, phase))))) &&
            Get(v, Sequences) == Some(OutlinesOf(env, phase.tracks)) &&
            Get(v, Participants) == Some(ParticipantsOf(phase.tracks))
  {
    hide Longest, TrackOutline, PhaseFields, TargetValue;
  }

  /** A phase and its outline entry say the same: id, duration, payload digest and the
      participants; and the duration is the longest of the tracks'. */
  lemma PhaseSays(env: Env, p: Program, k: nat)
    requires k < |p.phases|
    ensures var phase, outline, tracks := PhaseIn(BodyOf(env, p), k), OutlineIn(BodyOf(env, p), k), p.phases[k].tracks;
            Get(phase, PhaseId) == Get(outline, PhaseId) == Some(Text(p.phases[k].phaseId)) &&
            Get(phase, DurationUs) == Get(outline, DurationUs) == Some(Int(Longest(tracks))) &&
            Get(phase, Completion) == Some(DEFAULT_COMPLETION) &&
            Get(phase, Transitions) == Get(outline, Transitions) == Some(Array([])) &&
            Get(outline, PayloadSha) == Get(phase, Sha) == Some(Text(env.digest(Unsealed(phase)))) &&
            |Items(Get(phase, Sequences))| == |Items(Get(outline, Sequences))| == |tracks| &&
            |Items(Get(outline, Participants))| == |tracks|
  {
    hide PhaseValue, PhaseOutline, PhaseFields, TrackValue, TrackOutline, Longest, BodyOf, PhaseIn, OutlineIn, Unsealed;
    PhaseIsIn(env, p, k);
    PhaseValueSays(env, p.phases[k]);
    PhaseOutlineSays(env, p.phases[k]);
  }

  lemma TrackValueSays(env: Env, track: Track)
    ensures var v := TrackValue(env, track);
            Get(v, RolePathKey) == Some(Text(track.rolePath)) &&
            Get(v, ResolvedTarget) == Some(TargetValue(track.target)) &&
            Get(v, CommandSchema) == Some(Text(track.schema)) && Get(v, Reference) == Some(Text(track.reference)) &&
            Get(v, DurationUs) == Some(Int(TrackDuration(track))) && Get(v, Axes) == Some(AxisValues(track.axes)) &&
            Get(v, Samples) == Some(SampleValues(track.samples)) &&
            Get(v, Sha) == Some(Text(env.digest(Unsealed(v)))) && Unsealed(v) == Object(TrackFields(track))
  {
    hide Seal, TargetValue, AxisValues, SampleValues, Unsealed, TrackDuration;
    SealSays(env, TrackFields(track));
  }

  lemma TrackOutlineSays(env: Env, track: Track)
    ensures var v := TrackOutline(env, track);
            Get(v, RolePathKey) == Some(Text(track.rolePath)) &&
            Get(v, ResolvedTarget) == Some(TargetValue(track.target)) &&
            Get(v, CommandSchema) == Some(Text(track.schema)) && Get(v, Reference) == Some(Text(track.reference)) &&
            Get(v, DurationUs) == Some(Int(TrackDuration(track))) &&
            Get(v, Sha) == Some(Text(env.digest(Object(TrackFields(track)))))
  {
    hide TargetValue, TrackFields, TrackDuration;
  }

  /** The parts of a phase that concern track number `i`. */
  lemma TrackParts(env: Env, p: Program, k: nat, i: nat)
    requires k < |p.phases| && i < |p.phases[k].tracks|
    ensures var phase, outline := PhaseIn(BodyOf(env, p), k), OutlineIn(BodyOf(env, p), k);
            i < |Items(Get(phase, Sequences))| && i < |Items(Get(outline, Sequences))| &&
            i < |Items(Get(outline, Participants))| &&
            Items(Get(phase, Sequences))[i] == TrackValue(env, p.phases[k].tracks[i]) &&
            Items(Get(outline, Sequences))[i] == TrackOutline(env, p.phases[k].tracks[i]) &&
            Items(Get(outline, Participants))[i] == TargetValue(p.phases[k].tracks[i].target)
  {
    hide PhaseValue, PhaseOutline, PhaseFields, TrackValue, TrackOutline, Longest, BodyOf, PhaseIn, OutlineIn, Unsealed,
         TargetValue;
    PhaseIsIn(env, p, k);
    PhaseValueSays(env, p.phases[k]);
    PhaseOutlineSays(env, p.phases[k]);
  }

  /** A sequence, its outline entry and its participant say the same, and what the track
      says: where it goes, in which schema and reference, for how long, under which
      digest. */
  lemma SequenceSays(env: Env, p: Program, k: nat, i: nat)
    requires k < |p.phases| && i < |p.phases[k].tracks|
    ensures var phase, outline := PhaseIn(BodyOf(env, p), k), OutlineIn(BodyOf(env, p), k);
            var track := p.phases[k].tracks[i];
            i < |Items(Get(phase, Sequences))| && i < |Items(Get(outline, Sequences))| &&
            i < |Items(Get(outline, Participants))| &&
            var s, o := Items(Get(phase, Sequences))[i], Items(Get(outline, Sequences))[i];
            Get(s, RolePathKey) == Get(o, RolePathKey) == Some(Text(track.rolePath)) &&
            Get(s, ResolvedTarget) == Get(o, ResolvedTarget) == Some(Items(Get(outline, Participants))[i]) ==
              Some(Object(map[PhysicalNodeId := Text(track.target.physicalId),
                              GroupId := Text(track.target.groupId)])) &&
            Get(s, CommandSchema) == Get(o, CommandSchema) == Some(Text(track.schema)) &&
            Get(s, Reference) == Get(o, Reference) == Some(Text(track.reference)) &&
            Get(s, DurationUs) == Get(o, DurationUs) == Some(Int(TrackDuration(track))) &&
            Get(s, Sha) == Get(o, Sha) == Some(Text(env.digest(Unsealed(s))))
  {
    hide TrackValue, TrackOutline, BodyOf, PhaseIn, OutlineIn, Unsealed, Items, TrackFields, TrackDuration;
    var track := p.phases[k].tracks[i];
    TrackParts(env, p, k, i);
    TrackValueSays(env, track);
    TrackOutlineSays(env, track);
  }

  /** The samples and the axes of a sequence are those of the track, one by one. */
  lemma SampleSays(env: Env, p: Program, k: nat, i: nat, j: nat, a: nat)
    requires k < |p.phases| && i < |p.phases[k].tracks|
    requires j < |p.phases[k].tracks[i].samples| && a < |p.phases[k].tracks[i].axes|
    ensures var track := p.phases[k].tracks[i];
            var sequences := Items(Get(PhaseIn(BodyOf(env, p), k), Sequences));
            i < |sequences| && |Items(Get(sequences[i], Samples))| == |track.samples| &&
            |Items(Get(sequences[i], Axes))| == |track.axes| &&
            var sample, axis := Items(Get(sequences[i], Samples))[j], Items(Get(sequences[i], Axes))[a];
            Get(sample, TUs) == Some(Int(track.samples[j].tUs)) &&
            |Items(Get(sample, Positions))| == |track.samples[j].values| &&
            (forall v :: 0 <= v < |track.samples[j].values| ==>
               Items(Get(sample, Positions))[v] == Real(track.samples[j].values[v])) &&
            Get(axis, Name) == Some(Text(track.axes[a].name)) && Get(axis, Kind) == Some(Text(track.axes[a].kind)) &&
            Get(axis, Unit) == Some(Text(track.axes[a].unit))
  {
    hide TrackValue, TrackOutline, BodyOf, PhaseIn, OutlineIn, Unsealed, TrackFields, TrackDuration;
    TrackParts(env, p, k, i);
    TrackValueSays(env, p.phases[k].tracks[i]);
  }

  // ---------- the digest checks ----------

  /** Digests are right all the way down. */
  predicate PhaseHashesRight(env: Env, phase: Value, outline: Value) {
    phase.Object? && outline.Object? && Get(phase, Sha) == Some(Text(env.digest(Unsealed(phase)))) &&
    Get(outline, PayloadSha) == Get(phase, Sha) && Iterate(Get(phase, Sequences)).Some? &&
    var items := Iterate(Get(phase, Sequences)).value;
    forall i :: 0 <= i < |items| ==>
      items[i].Object? && Get(items[i], Sha) == Some(Text(env.digest(Unsealed(items[i]))))
  }

  predicate HashesRight(env: Env, body: Value) {
    Get(body, Outline).Some? && Get(body, Outline).value.Object? &&
    Get(body, OutlineSha) == Some(Text(env.digest(Get(body, Outline).value))) &&
    Get(body, Phases).Some? && Get(body, Phases).value.Array? &&
    Get(Get(body, Outline).value, Phases).Some? && Get(Get(body, Outline).value, Phases).value.Array? &&
    var phases, outlines := Get(body, Phases).value.items, Get(Get(body, Outline).value, Phases).value.items;
    |phases| == |outlines| && forall k :: 0 <= k < |phases| ==> PhaseHashesRight(env, phases[k], outlines[k])
  }

  lemma PhaseHashesExactly(env: Env, phase: Value, outline: Value)
    ensures PhaseHashFault(env, phase, outline).None? <==> PhaseHashesRight(env, phase, outline)
  {
    hide Unsealed;
    if phase.Object? { SealedIs(env, phase); }
    if phase.Object? && Iterate(Get(phase, Sequences)).Some? {
      var items := Iterate(Get(phase, Sequences)).value;
      forall i | 0 <= i < |items| && items[i].Object? { SealedIs(env, items[i]); }
      var checks := seq(|items|, i requires 0 <= i < |items| => SequenceHashFault(env, items[i]));
      assert forall i :: 0 <= i < |items| ==> checks[i] == SequenceHashFault(env, items[i]);
    }
  }

  lemma SealedIs(env: Env, v: Value)
    requires v.Object?
    ensures Sealed(env, v) <==> Get(v, Sha) == Some(Text(env.digest(Unsealed(v))))
  {
  }

  /** The internal checks pass exactly when the outline, every phase, its outline entry and
      every sequence carry the digest of what they stand for. */
  lemma HashesExactly(env: Env, body: Value)
    ensures HashFault(env, body).None? <==> HashesRight(env, body)
  {
    hide PhaseHashFault, PhaseHashesRight;
    forall phase, outline { PhaseHashesExactly(env, phase, outline); }
    if Get(body, Phases).Some? && Get(body, Outline).Some? && Get(Get(body, Outline).value, Phases).Some? {
      var phases, outlines := Items(Get(body, Phases)), Items(Get(Get(body, Outline).value, Phases));
      if |phases| == |outlines| {
        var checks := seq(|phases|, k requires 0 <= k < |phases| => PhaseHashFault(env, phases[k], outlines[k]));
        assert forall k :: 0 <= k < |phases| ==> checks[k] == PhaseHashFault(env, phases[k], outlines[k]);
      }
    }
  }

  // ---------- refusals ----------

  /** A good program of one registry, offered to another: it is refused by name when the
      server, the root or the manifest is a different one, before it is compiled again. */
  lemma ForeignProgramIsRefused(env: Env, view: View, other: View, p: Program)
    requires ProgramOk(view, p)
    ensures other.serverId != p.serverId ==> Validate(env, other, Render(env, p)) == Some(ServerMismatch)
    ensures other.serverId == p.serverId && other.exposed(p.rootId).None? ==>
              Validate(env, other, Render(env, p)) == Some(UnknownRoot)
    ensures other.serverId == p.serverId && other.exposed(p.rootId).Some? &&
            other.manifestHash(p.rootId) != p.manifestHash ==>
              Validate(env, other, Render(env, p)) == Some(ManifestMismatch)
  {
    hide HashFault, OutlineValue, PhaseValues, Recompile, PhasesOk, ShortId;
    RenderedHashes(env, p);
  }

  /** An artifact whose outer or inner digests do not fit is refused before anything else
      is looked at, and nothing with a wrong digest is ever accepted. */
  lemma WrongDigestIsRefused(env: Env, view: View, a: Artifact)
    ensures a.sha != env.digest(a.body) ==> Validate(env, view, a) == Some(HashMismatch)
    ensures Validate(env, view, a).None? ==> a.sha == env.digest(a.body) && HashesRight(env, a.body)
    ensures a.sha == env.digest(a.body) && !HashesRight(env, a.body) ==>
              Validate(env, view, a) == HashFault(env, a.body) && HashFault(env, a.body).Some?
  {
    hide HashFault, HashesRight, Recompile;
    HashesExactly(env, a.body);
  }

  /** Reading bytes: whatever is accepted was one canonical envelope of a supported format
      and version, with every digest right. */
  lemma ReadingIsSound(env: Env, codec: Codec, data: seq<int>)
    requires FromBytes(env, codec, data).Ok?
    ensures var a := FromBytes(env, codec, data).value;
            codec.decode(data) == Some(Envelope(a)) && codec.encode(Envelope(a)) == data &&
            a.sha == env.digest(a.body) && HashesRight(env, a.body) &&
            Get(a.body, Format) == Some(Text("robot-program")) &&
            Get(a.body, Version).Some? && Numeric(Get(a.body, Version).value) &&
            Number(Get(a.body, Version).value) == 2.0
  {
    hide HashFault, HashesRight;
    ReadingIsCanonical(env, codec, data);
    var a := FromBytes(env, codec, data).value;
    HashesExactly(env, a.body);
    var value := codec.decode(data).value;
    assert value.fields.Keys == {Body, Sha};
    assert value.fields == Envelope(a).fields;
  }

  /** Bytes are refused for not being CBOR, not being canonical, their envelope, the types in
      it, their format or version, or a digest, in this order. */
  lemma ReadingCode(env: Env, codec: Codec, data: seq<int>)
    ensures var r, value := FromBytes(env, codec, data), codec.decode(data);
            if value.None? then r == Err(InvalidCbor)
            else if codec.encode(value.value) != data then r == Err(NoncanonicalArtifact)
            else if !value.value.Object? || value.value.fields.Keys != {Body, Sha} then r == Err(InvalidArtifact)
            else
              var body, sha := value.value.fields[Body], value.value.fields[Sha];
              if !body.Object? || !sha.Text? then r == Err(InvalidArtifact)
              else if Get(body, Format) != Some(Text("robot-program")) || Get(body, Version).None? ||
                      !Numeric(Get(body, Version).value) || Number(Get(body, Version).value) != 2.0
              then r == Err(VersionUnsupported)
              else if sha.s != env.digest(body) then r == Err(HashMismatch)
              else if !HashesRight(env, body) then r.Err? && HashFault(env, body) == Some(r.code)
              else r == Ok(Artifact(body, sha.s))
  {
    hide HashFault, HashesRight;
    if codec.decode(data).Some? && codec.decode(data).value.Object? &&
       codec.decode(data).value.fields.Keys == {Body, Sha} {
      HashesExactly(env, codec.decode(data).value.fields[Body]);
    }
  }
}
