/** Compiled artifacts (remote_robot/program.py): how a program is written down, and how
    an untrusted artifact is validated by compiling it again. */
module Artifact {
  import opened Wrappers
  import opened Values
  import opened Compiler

  const COMPILED_FORMAT := "robot-program"

  datatype Artifact = Artifact(body: Value, sha: string)

  // ---------- writing a program down ----------

  function Reals(values: seq<real>): Value {
    Array(seq(|values|, i requires 0 <= i < |values| => Real(values[i])))
  }

  function SampleValue(s: Sample): Value {
    Object(map[TUs := Int(s.tUs), Positions := Reals(s.values)])
  }

  function SampleValues(samples: seq<Sample>): Value {
    Array(seq(|samples|, i requires 0 <= i < |samples| => SampleValue(samples[i])))
  }

  function AxisValue(tag: AxisTag): Value {
    Object(map[Name := Text(tag.name), Kind := Text(tag.kind), Unit := Text(tag.unit)])
  }

  function AxisValues(tags: seq<AxisTag>): Value {
    Array(seq(|tags|, i requires 0 <= i < |tags| => AxisValue(tags[i])))
  }

  function TargetValue(target: Target): Value {
    Object(map[PhysicalNodeId := Text(target.physicalId), GroupId := Text(target.groupId)])
  }

  function TrackFields(track: Track): (m: map<Field, Value>)
    ensures Sha !in m
  {
    map[RolePathKey := Text(track.rolePath), ResolvedTarget := TargetValue(track.target),
        CommandSchema := Text(track.schema), Reference := Text(track.reference), Axes := AxisValues(track.axes),
        DurationUs := Int(TrackDuration(track)), Samples := SampleValues(track.samples)]
  }

  /** An object together with the digest of everything else in it. */
  function Seal(env: Env, fields: map<Field, Value>): Value {
    Object(fields[Sha := Text(env.digest(Object(fields)))])
  }

  function TrackValue(env: Env, track: Track): Value {
    Seal(env, TrackFields(track))
  }

  function TrackValues(env: Env, tracks: seq<Track>): Value {
    Array(seq(|tracks|, i requires 0 <= i < |tracks| => TrackValue(env, tracks[i])))
  }

  function PhaseFields(env: Env, phase: Phase): (m: map<Field, Value>)
    ensures Sha !in m
  {
    map[PhaseId := Text(phase.phaseId), DurationUs := Int(Longest(phase.tracks)), Completion := DEFAULT_COMPLETION,
        Transitions := Array([]), Sequences := TrackValues(env, phase.tracks)]
  }

  function PhaseValue(env: Env, phase: Phase): Value {
    Seal(env, PhaseFields(env, phase))
  }

  function TrackOutline(env: Env, track: Track): Value {
    Object(map[RolePathKey := Text(track.rolePath), ResolvedTarget := TargetValue(track.target),
               CommandSchema := Text(track.schema), Reference := Text(track.reference),
               DurationUs := Int(TrackDuration(track)), Sha := Text(env.digest(Object(TrackFields(track))))])
  }

  function PhaseOutline(env: Env, phase: Phase): Value {
    var tracks := phase.tracks;
    Object(map[PhaseId := Text(phase.phaseId), DurationUs := Int(Longest(tracks)),
               Participants := Array(seq(|tracks|, i requires 0 <= i < |tracks| => TargetValue(tracks[i].target))),
               Sequences := Array(seq(|tracks|, i requires 0 <= i < |tracks| => TrackOutline(env, tracks[i]))),
               Transitions := Array([]), PayloadSha := Text(env.digest(Object(PhaseFields(env, phase))))])
  }

  function OutlineValue(env: Env, phases: seq<Phase>): Value {
    Object(map[PhaseCount := Int(|phases|),
               Phases := Array(seq(|phases|, i requires 0 <= i < |phases| => PhaseOutline(env, phases[i])))])
  }

  function PhaseValues(env: Env, phases: seq<Phase>): Value {
    Array(seq(|phases|, i requires 0 <= i < |phases| => PhaseValue(env, phases[i])))
  }

  function BodyOf(env: Env, p: Program): Value {
    var outline := OutlineValue(env, p.phases);
    Object(map[Format := Text(COMPILED_FORMAT), Version := Int(PROGRAM_VERSION), ProgramId := Text(p.programId),
               ServerId := Text(p.serverId), RootId := Text(p.rootId), ManifestHash := Text(p.manifestHash),
               Outline := outline, OutlineSha := Text(env.digest(outline)), Phases := PhaseValues(env, p.phases)])
  }

  function Render(env: Env, p: Program): Artifact {
    Artifact(BodyOf(env, p), env.digest(BodyOf(env, p)))
  }

  // ---------- back to a template ----------

  /** A template sequence out of a compiled one; nothing if a field is missing. */
  function RawSequence(v: Value): Option<Value> {
    if v.Object? && {RolePathKey, CommandSchema, Reference, Samples} <= v.fields.Keys
    then Some(Object(map[Group := v.fields[RolePathKey], CommandSchema := v.fields[CommandSchema],
                         Reference := v.fields[Reference], Samples := v.fields[Samples]]))
    else None
  }

  function RawSequences(items: seq<Value>): (r: Option<seq<Value>>)
    decreases |items|
  {
    if items == [] then Some([])
    else
      var before, last := RawSequences(items[..|items| - 1]), RawSequence(items[|items| - 1]);
      if before.None? || last.None? then None else Some(before.value + [last.value])
  }

  function RawPhase(v: Value): Option<Value> {
    if !v.Object? || !({PhaseId, Completion, Transitions, Sequences} <= v.fields.Keys) || !v.fields[Sequences].Array?
      then None
    else
      var sequences := RawSequences(v.fields[Sequences].items);
      if sequences.None? then None
      else Some(Object(map[PhaseId := v.fields[PhaseId], Completion := v.fields[Completion],
                           Transitions := v.fields[Transitions], Sequences := Array(sequences.value)]))
  }

  function RawPhases(items: seq<Value>): (r: Option<seq<Value>>)
    decreases |items|
  {
    if items == [] then Some([])
    else
      var before, last := RawPhases(items[..|items| - 1]), RawPhase(items[|items| - 1]);
      if before.None? || last.None? then None else Some(before.value + [last.value])
  }

  function TemplateOf(body: Value): Option<Value> {
    if !body.Object? || !({Phases, ProgramId, RootId} <= body.fields.Keys) || !body.fields[Phases].Array? then None
    else
      var phases := RawPhases(body.fields[Phases].items);
      if phases.None? then None
      else Some(Object(map[Format := Text(TEMPLATE_FORMAT), Version := Int(PROGRAM_VERSION),
                           ProgramId := body.fields[ProgramId],
                           RootId := body.fields[RootId], Phases := Array(phases.value)]))
  }

  /** The nested loops that put a template together. */
  method TemplateFromCompiled(body: Value) returns (template: Option<Value>)
    ensures template == TemplateOf(body)
  {
    if !body.Object? || Phases !in body.fields || !body.fields[Phases].Array? { return None; }
    var items, phases := body.fields[Phases].items, [];
    for i := 0 to |items|
      invariant RawPhases(items[..i]) == Some(phases)
    {
      assert items[..i + 1][..i] == items[..i];
      var phase := PhaseFromCompiled(items[i]);
      if phase.None? {
        MissingPhase(items, i);
        return None;
      }
      phases := phases + [phase.value];
    }
    assert items[..|items|] == items;
    if ProgramId !in body.fields || RootId !in body.fields { return None; }
    return Some(Object(map[Format := Text(TEMPLATE_FORMAT), Version := Int(PROGRAM_VERSION),
                           ProgramId := body.fields[ProgramId],
                           RootId := body.fields[RootId], Phases := Array(phases)]));
  }

  method PhaseFromCompiled(phase: Value) returns (template: Option<Value>)
    ensures template == RawPhase(phase)
  {
    if !phase.Object? || Sequences !in phase.fields || !phase.fields[Sequences].Array? { return None; }
    var items, sequences := phase.fields[Sequences].items, [];
    for i := 0 to |items|
      invariant RawSequences(items[..i]) == Some(sequences)
    {
      assert items[..i + 1][..i] == items[..i];
      var sequence := RawSequence(items[i]);
      if sequence.None? {
        MissingSequence(items, i);
        return None;
      }
      sequences := sequences + [sequence.value];
    }
    assert items[..|items|] == items;
    if !({PhaseId, Completion, Transitions} <= phase.fields.Keys) { return None; }
    return Some(Object(map[PhaseId := phase.fields[PhaseId], Completion := phase.fields[Completion],
                           Transitions := phase.fields[Transitions], Sequences := Array(sequences)]));
  }

  lemma {:induction false} MissingPhase(items: seq<Value>, i: nat)
    requires i < |items| && RawPhase(items[i]).None?
    ensures RawPhases(items).None?
    decreases |items|
  {
    if i < |items| - 1 { MissingPhase(items[..|items| - 1], i); }
  }

  lemma {:induction false} MissingSequence(items: seq<Value>, i: nat)
    requires i < |items| && RawSequence(items[i]).None?
    ensures RawSequences(items).None?
    decreases |items|
  {
    if i < |items| - 1 { MissingSequence(items[..|items| - 1], i); }
  }

  // ---------- the internal digests ----------

  /** What a Python `for` visits; nothing when it would raise, at once or at the first item. */
  function Iterate(v: Option<Value>): Option<seq<Value>> {
    match v
    case None => Some([])
    case Some(Array(items)) => Some(items)
    case Some(Text(s)) => if s == "" then Some([]) else None
    case Some(Object(fields)) => if fields == map[] then Some([]) else None
    case Some(_) => None
  }

  predicate Sealed(env: Env, v: Value) {
    v.Object? && Get(v, Sha) == Some(Text(env.digest(Object(v.fields - {Sha}))))
  }

  function SequenceHashFault(env: Env, v: Value): Option<Code> {
    if !v.Object? then Some(Uncaught) else if !Sealed(env, v) then Some(HashMismatch) else None
  }

  function PhaseHashFault(env: Env, phase: Value, outline: Value): Option<Code> {
    if !phase.Object? || !outline.Object? then Some(InvalidArtifact)
    else if !Sealed(env, phase) || Get(outline, PayloadSha) != Get(phase, Sha) then Some(HashMismatch)
    else
      var sequences := Iterate(Get(phase, Sequences));
      if sequences.None? then Some(Uncaught)
      else
        var items := sequences.value;
        FirstError(seq(|items|, i requires 0 <= i < |items| => SequenceHashFault(env, items[i])))
  }

  function HashFault(env: Env, body: Value): Option<Code> {
    var outline, phases := Get(body, Outline), Get(body, Phases);
    if outline.None? || !outline.value.Object? || Get(body, OutlineSha) != Some(Text(env.digest(outline.value)))
    then Some(HashMismatch)
    else if phases.None? || !phases.value.Array? then Some(InvalidArtifact)
    else
      var outlines := Get(outline.value, Phases);
      if outlines.None? || !outlines.value.Array? || |outlines.value.items| != |phases.value.items|
        then Some(InvalidArtifact)
      else
        var ps, os := phases.value.items, outlines.value.items;
        FirstError(seq(|ps|, i requires 0 <= i < |ps| => PhaseHashFault(env, ps[i], os[i])))
  }

  // ---------- validation ----------

  /** Nothing for an accepted artifact, otherwise why it is refused. */
  function Validate(env: Env, view: View, a: Artifact): Option<Code> {
    if a.sha != env.digest(a.body) then Some(HashMismatch)
    else
      var fault := HashFault(env, a.body);
      if fault.Some? then fault
      else if Get(a.body, ServerId).None? then Some(Uncaught)
      else if Str(env, Get(a.body, ServerId).value) != view.serverId then Some(ServerMismatch)
      else if Get(a.body, RootId).None? then Some(Uncaught)
      else
        var root := Str(env, Get(a.body, RootId).value);
        if view.exposed(root).None? then Some(UnknownRoot)
        else if Get(a.body, ManifestHash).None? then Some(Uncaught)
        else if view.manifestHash(root) != Str(env, Get(a.body, ManifestHash).value) then Some(ManifestMismatch)
        else Recompile(env, view, a)
  }

  function Recompile(env: Env, view: View, a: Artifact): Option<Code> {
    var template := TemplateOf(a.body);
    if template.None? then Some(InvalidArtifact)
    else
      var rebuilt := Compile(env, view, template.value);
      if rebuilt.Err? then Some(rebuilt.code)
      else if !Same(BodyOf(env, rebuilt.value), a.body) || env.digest(BodyOf(env, rebuilt.value)) != a.sha
      then Some(NoncanonicalArtifact)
      else None
  }

  // ---------- the rebuilt template denotes the program ----------

  function SequenceTemplate(track: Track): Value {
    Object(map[Group := Text(track.rolePath), CommandSchema := Text(track.schema),
               Reference := Text(track.reference), Samples := SampleValues(track.samples)])
  }

  function SequenceTemplates(tracks: seq<Track>): Value {
    Array(seq(|tracks|, i requires 0 <= i < |tracks| => SequenceTemplate(tracks[i])))
  }

  function PhaseTemplate(phase: Phase): Value {
    Object(map[PhaseId := Text(phase.phaseId), Completion := DEFAULT_COMPLETION, Transitions := Array([]),
               Sequences := SequenceTemplates(phase.tracks)])
  }

  function PhaseTemplates(phases: seq<Phase>): Value {
    Array(seq(|phases|, i requires 0 <= i < |phases| => PhaseTemplate(phases[i])))
  }

  function TemplateFor(p: Program): Value {
    Object(map[Format := Text(TEMPLATE_FORMAT), Version := Int(PROGRAM_VERSION), ProgramId := Text(p.programId),
               RootId := Text(p.rootId), Phases := PhaseTemplates(p.phases)])
  }

  lemma {:induction false} RawSequencesOf(env: Env, tracks: seq<Track>)
    ensures RawSequences(TrackValues(env, tracks).items) == Some(SequenceTemplates(tracks).items)
    decreases |tracks|
  {
    hide TrackValue, RawSequence, SequenceTemplate;
    if tracks == [] {
      assert TrackValues(env, tracks).items == [] && SequenceTemplates(tracks).items == [];
    } else {
      var n := |tracks| - 1;
      RawSequencesOf(env, tracks[..n]);
      TrackReads(env, tracks[n]);
      assert TrackValues(env, tracks).items[..n] == TrackValues(env, tracks[..n]).items;
      assert SequenceTemplates(tracks).items == SequenceTemplates(tracks[..n]).items + [SequenceTemplate(tracks[n])];
    }
  }

  lemma TrackReads(env: Env, track: Track)
    ensures RawSequence(TrackValue(env, track)) == Some(SequenceTemplate(track))
  {
    hide SampleValues, AxisValues;
  }

  lemma {:induction false} RawPhasesOf(env: Env, phases: seq<Phase>)
    ensures RawPhases(PhaseValues(env, phases).items) == Some(PhaseTemplates(phases).items)
    decreases |phases|
  {
    hide PhaseValue, PhaseTemplate, RawPhase;
    if phases == [] {
      assert PhaseValues(env, phases).items == [] && PhaseTemplates(phases).items == [];
    } else {
      var n := |phases| - 1;
      RawPhasesOf(env, phases[..n]);
      PhaseReads(env, phases[n]);
      assert PhaseValues(env, phases).items[..n] == PhaseValues(env, phases[..n]).items;
      assert PhaseTemplates(phases).items == PhaseTemplates(phases[..n]).items + [PhaseTemplate(phases[n])];
    }
  }

  lemma PhaseReads(env: Env, phase: Phase)
    ensures RawPhase(PhaseValue(env, phase)) == Some(PhaseTemplate(phase))
  {
    hide RawSequences, Longest, TrackValue;
    RawSequencesOf(env, phase.tracks);
  }

  lemma TemplateOfBody(env: Env, p: Program)
    ensures TemplateOf(BodyOf(env, p)) == Some(TemplateFor(p))
  {
    hide RawPhases, PhaseValue, PhaseTemplate, OutlineValue;
    RawPhasesOf(env, p.phases);
  }

  lemma SequenceTemplateDenotes(env: Env, track: Track)
    ensures SequenceDenotes(env, SequenceTemplate(track), track)
  {
    var items := SampleValues(track.samples).items;
    forall i | 0 <= i < |items|
      ensures SampleDenotes(env, items[i], track.samples[i])
    {
    }
  }

  lemma PhaseTemplateDenotes(env: Env, phase: Phase)
    ensures PhaseDenotes(env, PhaseTemplate(phase), phase)
  {
    hide SequenceDenotes, SequenceTemplate;
    forall i | 0 <= i < |phase.tracks| { SequenceTemplateDenotes(env, phase.tracks[i]); }
  }

  lemma TemplateForDenotes(env: Env, p: Program)
    ensures TemplateDenotes(env, TemplateFor(p), p)
  {
    hide PhaseDenotes, PhaseTemplate;
    forall i | 0 <= i < |p.phases| { PhaseTemplateDenotes(env, p.phases[i]); }
  }

  // ---------- the digests of a rendered program ----------

  lemma SealIsSealed(env: Env, fields: map<Field, Value>)
    requires Sha !in fields
    ensures Sealed(env, Seal(env, fields))
  {
    assert Seal(env, fields).fields - {Sha} == fields;
  }

  lemma PhaseHashes(env: Env, phase: Phase)
    ensures PhaseHashFault(env, PhaseValue(env, phase), PhaseOutline(env, phase)).None?
  {
    hide TrackFields, Sealed, Longest;
    SealIsSealed(env, PhaseFields(env, phase));
    forall i | 0 <= i < |phase.tracks|
      ensures SequenceHashFault(env, TrackValue(env, phase.tracks[i])).None?
    {
      SealIsSealed(env, TrackFields(phase.tracks[i]));
    }
    assert Get(PhaseValue(env, phase), Sequences) == Some(TrackValues(env, phase.tracks));
  }

  lemma RenderedHashes(env: Env, p: Program)
    ensures HashFault(env, BodyOf(env, p)).None?
  {
    hide PhaseHashFault, PhaseValue, PhaseOutline;
    forall i | 0 <= i < |p.phases| { PhaseHashes(env, p.phases[i]); }
  }

  // ---------- the theorems ----------

  /** Compilation is a fixed point: the template rebuilt from a compiled body compiles to
      the same program, hence to the same body and the same digest, and the body passes
      its own digest checks. */
  lemma RecompileIsIdentity(env: Env, view: View, template: Value)
    requires Compile(env, view, template).Ok?
    ensures var p := Compile(env, view, template).value;
            TemplateOf(BodyOf(env, p)).Some? && Compile(env, view, TemplateOf(BodyOf(env, p)).value) == Ok(p) &&
            HashFault(env, BodyOf(env, p)).None?
  {
    hide Compile, TemplateOf, BodyOf, HashFault, TemplateDenotes, ProgramOk;
    var p := Compile(env, view, template).value;
    CompileIff(env, view, template, p);
    CompiledAgain(env, view, p);
    RenderedHashes(env, p);
  }

  lemma GoodProgramIsAccepted(env: Env, view: View, p: Program)
    requires ProgramOk(view, p)
    ensures Validate(env, view, Render(env, p)).None?
  {
    hide Compile, TemplateOf, HashFault, TemplateDenotes, PhasesOk, OutlineValue, PhaseValues, Same, ShortId;
    CompiledAgain(env, view, p);
    RenderedHashes(env, p);
    SameIsReflexive(BodyOf(env, p));
  }

  /** Whatever is accepted compares equal to a good program's body and carries its digest. */
  lemma AcceptedIsCompiled(env: Env, view: View, a: Artifact) returns (p: Program)
    requires Validate(env, view, a).None?
    ensures ProgramOk(view, p) && Same(BodyOf(env, p), a.body) &&
            a.sha == env.digest(BodyOf(env, p)) == env.digest(a.body)
    ensures exists template :: Compile(env, view, template) == Ok(p)
  {
    hide Compile, TemplateOf, HashFault, TemplateDenotes, ProgramOk, BodyOf, Same;
    var template := TemplateOf(a.body).value;
    p := Compile(env, view, template).value;
    CompileIff(env, view, template, p);
  }

  /** No compiler output other than the artifact's own body has the artifact's digest. */
  ghost predicate NoCollision(env: Env, view: View, body: Value) {
    forall p :: ProgramOk(view, p) && env.digest(BodyOf(env, p)) == env.digest(body) ==> BodyOf(env, p) == body
  }

  /** Unless digests collide, validation accepts exactly the renderings of good programs:
      not a number spelt differently, not a field more or less. */
  lemma ValidateIff(env: Env, view: View, a: Artifact)
    requires NoCollision(env, view, a.body)
    ensures Validate(env, view, a).None? <==> exists p :: ProgramOk(view, p) && a == Render(env, p)
  {
    hide Validate, ProgramOk, BodyOf, Same;
    if Validate(env, view, a).None? {
      var p := AcceptedIsCompiled(env, view, a);
      assert a == Render(env, p);
    }
    if p :| ProgramOk(view, p) && a == Render(env, p) {
      GoodProgramIsAccepted(env, view, p);
    }
  }

  /** The same body with its version written as 2.0, which Python compares as equal. */
  function Respelt(body: Value): Value {
    if body.Object? then Object(body.fields[Version := Real(2.0)]) else body
  }

  lemma RespeltIsSame(body: Value)
    requires Get(body, Version) == Some(Int(PROGRAM_VERSION))
    ensures Same(body, Respelt(body))
  {
    forall f | f in body.fields
      ensures Same(body.fields[f], Respelt(body).fields[f])
    {
      SameIsReflexive(body.fields[f]);
    }
  }

  /** Neither the digest checks nor the rebuilt template look at the version. */
  lemma VersionIsNotRead(env: Env, body: Value)
    requires Get(body, Version).Some?
    ensures HashFault(env, Respelt(body)) == HashFault(env, body) && TemplateOf(Respelt(body)) == TemplateOf(body)
    ensures forall f :: f != Version ==> Get(Respelt(body), f) == Get(body, f)
  {
    hide PhaseHashFault, RawPhases;
    assert Respelt(body).fields.Keys == body.fields.Keys;
  }

  /** Without the hypothesis on digests validation does accept more: if all digests are
      equal, every good program is also accepted in a spelling that no compiler writes. */
  lemma CollisionsAdmitMore(env: Env, view: View, p: Program)
    requires ProgramOk(view, p) && forall v :: env.digest(v) == env.digest(Null)
    ensures var a := Artifact(Respelt(BodyOf(env, p)), env.digest(Null));
            Validate(env, view, a).None? && forall q :: a != Render(env, q)
  {
    hide Compile, TemplateOf, HashFault, ProgramOk, OutlineValue, PhaseValues, Same;
    var body := BodyOf(env, p);
    var a := Artifact(Respelt(body), env.digest(Null));
    GoodProgramIsAccepted(env, view, p);
    VersionIsNotRead(env, body);
    RespeltIsSame(body);
    CompiledAgain(env, view, p);
    forall q
      ensures a != Render(env, q)
    {
      assert Get(a.body, Version) == Some(Real(2.0)) && Get(BodyOf(env, q), Version) == Some(Int(PROGRAM_VERSION));
    }
  }

  lemma CompiledAgain(env: Env, view: View, p: Program)
    requires ProgramOk(view, p)
    ensures TemplateOf(BodyOf(env, p)).Some? && Compile(env, view, TemplateOf(BodyOf(env, p)).value) == Ok(p)
  {
    hide Compile, TemplateOf, BodyOf, TemplateDenotes, ProgramOk;
    TemplateOfBody(env, p);
    TemplateForDenotes(env, p);
    CompileIff(env, view, TemplateFor(p), p);
  }

  // ---------- bytes ----------

  /** Canonical CBOR; `decode` fails on what is not one CBOR value. */
  datatype Codec = Codec(encode: Value -> seq<int>, decode: seq<int> -> Option<Value>)

  function Envelope(a: Artifact): Value {
    Object(map[Body := a.body, Sha := Text(a.sha)])
  }

  function ToBytes(codec: Codec, a: Artifact): seq<int> {
    codec.encode(Envelope(a))
  }

  function FromBytes(env: Env, codec: Codec, data: seq<int>): Result<Artifact> {
    var value := codec.decode(data);
    if value.None? then Err(InvalidCbor)
    else if data != codec.encode(value.value) then Err(NoncanonicalArtifact)
    else if !ExactFields(value.value, {Body, Sha}, {}) then Err(InvalidArtifact)
    else
      var body, sha := value.value.fields[Body], value.value.fields[Sha];
      if !body.Object? || !sha.Text? then Err(InvalidArtifact)
      else if !Supported(body) then Err(VersionUnsupported)
      else if sha.s != env.digest(body) then Err(HashMismatch)
      else
        var fault := HashFault(env, body);
        if fault.Some? then Err(fault.value) else Ok(Artifact(body, sha.s))
  }

  predicate Supported(body: Value) {
    Get(body, Format).Some? && Same(Get(body, Format).value, Text(COMPILED_FORMAT)) &&
    Get(body, Version).Some? && Same(Get(body, Version).value, Int(PROGRAM_VERSION))
  }

  /** Accepted bytes are the canonical bytes of what was read, whatever the codec does. */
  lemma ReadingIsCanonical(env: Env, codec: Codec, data: seq<int>)
    requires FromBytes(env, codec, data).Ok?
    ensures ToBytes(codec, FromBytes(env, codec, data).value) == data
  {
    hide HashFault, Supported;
    var value := codec.decode(data).value;
    var a := FromBytes(env, codec, data).value;
    assert value.fields.Keys == {Body, Sha};
    assert value.fields == Envelope(a).fields;
  }

  /** Every compiled program survives being written and read back. */
  lemma WriteThenRead(env: Env, codec: Codec, p: Program)
    requires var v := Envelope(Render(env, p)); codec.decode(codec.encode(v)) == Some(v)
    ensures FromBytes(env, codec, ToBytes(codec, Render(env, p))) == Ok(Render(env, p))
  {
    hide HashFault, OutlineValue, PhaseValues;
    RenderedHashes(env, p);
    assert Envelope(Render(env, p)).fields.Keys == {Body, Sha};
  }
}
