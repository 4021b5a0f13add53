/** The program compiler (remote_robot/program.py): from an untrusted template to a
    resolved, dense, rate-checked program.

    `Compile` follows the source check by check; `TemplateDenotes` says what a template
    means and `ProgramOk` what a good program is, without any order of checks.  The
    lemma `CompileIff` equates the two views. */
module Compiler {
  import opened Wrappers
  import opened Values
  import opened Quintic
  import Lease
  import Protocol

  const POSITION_SCHEMA := "joint_position_trajectory/v1"
  const NORMALIZED_SCHEMA := "normalized_position_trajectory/v1"
  const ABSOLUTE := "absolute"
  const RELATIVE := "phase_start_measured"
  const TEMPLATE_FORMAT := "robot-program-template"
  const PROGRAM_VERSION := 2
  const DEFAULT_COMPLETION := Object(map[Schema := Text("all_sequences_finished/v1")])

  datatype Axis = Axis(
    name: string, kind: string, unit: string,
    lower: Option<real>, upper: Option<real>, maxVelocity: Option<real>, maxAcceleration: Option<real>)

  datatype Target = Target(physicalId: string, groupId: string)

  datatype Resolution = Resolution(target: Target, schemas: seq<string>, axes: seq<Axis>)

  /** The registry as compilation sees it; an unknown root has no exposure flag. */
  datatype View = View(
    serverId: string,
    exposed: string -> Option<bool>,
    manifestHash: string -> string,
    resolve: (string, string) -> Option<Resolution>)

  /** What samples are checked against. */
  datatype Command = Command(axes: seq<Axis>, reference: string, schema: string)

  datatype Sample = Sample(tUs: int, values: seq<real>)

  datatype AxisTag = AxisTag(name: string, kind: string, unit: string)

  datatype Track = Track(
    rolePath: string, target: Target, schema: string, reference: string,
    axes: seq<AxisTag>, samples: seq<Sample>)

  datatype Phase = Phase(phaseId: string, tracks: seq<Track>)

  datatype Program = Program(
    programId: string, serverId: string, rootId: string, manifestHash: string, phases: seq<Phase>)

  // ---------- identifiers ----------

  predicate ShortId(s: string) {
    1 <= |s| <= 128 && forall i :: 0 <= i < |s| ==> !Lease.Whitespace(s[i])
  }

  predicate ProperPath(s: string) {
    ShortId(s) && s[0] != '.' && s[|s| - 1] != '.' && forall i :: 0 <= i < |s| - 1 ==> !(s[i] == '.' && s[i + 1] == '.')
  }

  // ---------- what good samples are ----------

  predicate InRange(axis: Axis, v: real) {
    (axis.lower.Some? ==> axis.lower.value <= v) && (axis.upper.Some? ==> v <= axis.upper.value)
  }

  predicate VelocityOk(axis: Axis, from: real, to: real, dt: real)
    requires 0.0 < dt
  {
    axis.maxVelocity.Some? ==> PEAK_VELOCITY * Abs(to - from) / dt <= axis.maxVelocity.value
  }

  predicate AccelerationOk(axis: Axis, from: real, to: real, dt: real)
    requires 0.0 < dt
  {
    axis.maxAcceleration.Some? ==> PEAK_ACCELERATION * Abs(to - from) / (dt * dt) <= axis.maxAcceleration.value
  }

  predicate RatesOk(axis: Axis, from: real, to: real, us: int)
    requires 0 < us
  {
    VelocityOk(axis, from, to, Protocol.Seconds(us)) && AccelerationOk(axis, from, to, Protocol.Seconds(us))
  }

  predicate Normalised(reference: string, v: real) {
    if reference == ABSOLUTE then 0.0 <= v <= 1.0 else -1.0 <= v <= 1.0
  }

  /** One value for every axis, each within the limits that apply. */
  predicate ValuesOk(cmd: Command, values: seq<real>) {
    |values| == |cmd.axes| &&
    (cmd.reference == ABSOLUTE ==> forall i :: 0 <= i < |values| ==> InRange(cmd.axes[i], values[i])) &&
    (cmd.schema == NORMALIZED_SCHEMA ==> forall i :: 0 <= i < |values| ==> Normalised(cmd.reference, values[i]))
  }

  predicate StartsAtZero(values: seq<real>) {
    forall i :: 0 <= i < |values| ==> Abs(values[i]) <= 0.000000000001
  }

  predicate StepOk(cmd: Command, a: Sample, b: Sample) {
    a.tUs < b.tUs && |a.values| == |b.values| == |cmd.axes| &&
    forall i :: 0 <= i < |cmd.axes| ==> RatesOk(cmd.axes[i], a.values[i], b.values[i], b.tUs - a.tUs)
  }

  predicate StepsOk(cmd: Command, samples: seq<Sample>) {
    forall i :: 0 <= i < |samples| - 1 ==> StepOk(cmd, samples[i], samples[i + 1])
  }

  predicate Dense(cmd: Command, samples: seq<Sample>) {
    (samples != [] ==> samples[0].tUs == 0 && (cmd.reference == RELATIVE ==> StartsAtZero(samples[0].values))) &&
    (forall i :: 0 <= i < |samples| ==> ValuesOk(cmd, samples[i].values)) &&
    StepsOk(cmd, samples)
  }

  /** Sample times start at zero and increase strictly, however far apart two samples are. */
  lemma {:induction false} SampleTimesIncrease(cmd: Command, samples: seq<Sample>, i: nat, k: nat)
    requires StepsOk(cmd, samples) && i < k < |samples|
    ensures samples[i].tUs < samples[k].tUs
  {
    assert StepOk(cmd, samples[k - 1], samples[k]);
    if i < k - 1 { SampleTimesIncrease(cmd, samples, i, k - 1); }
  }

  // ---------- reading samples ----------

  function RateFault(axes: seq<Axis>, from: seq<real>, to: seq<real>, us: int, i: nat): (fault: Option<Code>)
    requires 0 < us && i <= |axes| == |from| == |to|
    ensures fault.None? <==> forall k :: i <= k < |axes| ==> RatesOk(axes[k], from[k], to[k], us)
    decreases |axes| - i
  {
    if i == |axes| then None
    else if !VelocityOk(axes[i], from[i], to[i], Protocol.Seconds(us)) then
      assert !RatesOk(axes[i], from[i], to[i], us);
      Some(VelocityLimit)
    else if !AccelerationOk(axes[i], from[i], to[i], Protocol.Seconds(us)) then
      assert !RatesOk(axes[i], from[i], to[i], us);
      Some(AccelerationLimit)
    else RateFault(axes, from, to, us, i + 1)
  }

  method ValidateSegmentRates(axes: seq<Axis>, from: seq<real>, to: seq<real>, us: int) returns (fault: Option<Code>)
    requires 0 < us && |axes| == |from| == |to|
    ensures fault == RateFault(axes, from, to, us, 0)
  {
    var dt := Protocol.Seconds(us);
    for i := 0 to |axes|
      invariant RateFault(axes, from, to, us, 0) == RateFault(axes, from, to, us, i)
    {
      if !VelocityOk(axes[i], from[i], to[i], dt) { return Some(VelocityLimit); }
      if !AccelerationOk(axes[i], from[i], to[i], dt) { return Some(AccelerationLimit); }
    }
    return None;
  }

  predicate ReadsAs(env: Env, raw: Value, values: seq<real>) {
    raw.Array? && |raw.items| == |values| &&
    forall i :: 0 <= i < |values| ==> ToFloat(env, raw.items[i]) == Finite(values[i])
  }

  function ReadValues(env: Env, dimension: nat, raw: Value): (r: Result<seq<real>>)
    ensures r.Ok? ==> |r.value| == dimension && ReadsAs(env, raw, r.value)
    ensures r.Err? ==> forall values :: |values| == dimension ==> !ReadsAs(env, raw, values)
  {
    if !raw.Array? || |raw.items| != dimension then Err(DenseAxisMismatch)
    else if exists i :: 0 <= i < dimension && raw.items[i].Bool? then Err(SchemaInvalid)
    else if exists i :: 0 <= i < dimension && ToFloat(env, raw.items[i]).NotNumeric? then Err(SchemaInvalid)
    else if exists i :: 0 <= i < dimension && ToFloat(env, raw.items[i]).Infinite? then Err(NonFiniteValue)
    else
      Ok(seq(dimension, i requires 0 <= i < dimension && ToFloat(env, raw.items[i]).Finite? =>
               ToFloat(env, raw.items[i]).r))
  }

  /** The order in which a sample's values are found wanting. */
  function ValueFault(cmd: Command, first: bool, values: seq<real>): (fault: Option<Code>)
    requires |values| == |cmd.axes|
    ensures fault.None? <==> ValuesOk(cmd, values) && (first && cmd.reference == RELATIVE ==> StartsAtZero(values))
  {
    if cmd.reference == RELATIVE && first && !StartsAtZero(values) then Some(StartStateMismatch)
    else if !ValuesOk(cmd, values) then Some(LimitViolation)
    else None
  }

  function TimeFault(previous: Option<Sample>, t: Value): Option<Code> {
    if !t.Int? || t.n < 0 then Some(InvalidTime)
    else if previous.None? && t.n != 0 then Some(InvalidTime)
    else if previous.Some? && t.n <= previous.value.tUs then Some(InvalidTime)
    else None
  }

  function ReadSample(env: Env, cmd: Command, previous: Option<Sample>, raw: Value): (r: Result<Sample>)
    requires previous.Some? ==> |previous.value.values| == |cmd.axes|
    ensures r.Ok? ==> |r.value.values| == |cmd.axes|
  {
    if !ExactFields(raw, {TUs, Positions}, {}) then Err(SchemaInvalid)
    else
      var late := TimeFault(previous, raw.fields[TUs]);
      if late.Some? then Err(late.value)
      else
        var values := ReadValues(env, |cmd.axes|, raw.fields[Positions]);
        if values.Err? then Err(values.code)
        else
          var t := raw.fields[TUs].n;
          var bad := ValueFault(cmd, previous.None?, values.value);
          if bad.Some? then Err(bad.value)
          else
            var fast :=
              if previous.None? then None
              else RateFault(cmd.axes, previous.value.values, values.value, t - previous.value.tUs, 0);
            if fast.Some? then Err(fast.value) else Ok(Sample(t, values.value))
  }

  predicate SampleDenotes(env: Env, raw: Value, s: Sample) {
    ExactFields(raw, {TUs, Positions}, {}) && raw.fields[TUs] == Int(s.tUs) &&
    ReadsAs(env, raw.fields[Positions], s.values)
  }

  predicate Follows(cmd: Command, previous: Option<Sample>, s: Sample) {
    ValuesOk(cmd, s.values) &&
    (previous.None? ==> s.tUs == 0 && (cmd.reference == RELATIVE ==> StartsAtZero(s.values))) &&
    (previous.Some? ==> StepOk(cmd, previous.value, s))
  }

  lemma SameReading(env: Env, raw: Value, a: seq<real>, b: seq<real>)
    requires ReadsAs(env, raw, a) && ReadsAs(env, raw, b)
    ensures a == b
  {
    assert forall i :: 0 <= i < |a| ==> Finite(a[i]) == Finite(b[i]);
  }

  lemma ReadSampleIff(env: Env, cmd: Command, previous: Option<Sample>, raw: Value, s: Sample)
    requires previous.Some? ==> |previous.value.values| == |cmd.axes| && 0 <= previous.value.tUs
    ensures ReadSample(env, cmd, previous, raw) == Ok(s) <==> SampleDenotes(env, raw, s) && Follows(cmd, previous, s)
  {
    hide ReadsAs, ValuesOk, RatesOk, StartsAtZero;
    var r := ReadSample(env, cmd, previous, raw);
    if SampleDenotes(env, raw, s) && Follows(cmd, previous, s) {
      DimensionOf(cmd, s.values);
      var values := ReadValues(env, |cmd.axes|, raw.fields[Positions]);
      if values.Ok? { SameReading(env, raw.fields[Positions], values.value, s.values); }
    }
  }

  lemma DimensionOf(cmd: Command, values: seq<real>)
    requires ValuesOk(cmd, values)
    ensures |values| == |cmd.axes|
  {
  }

  function Last(samples: seq<Sample>): Option<Sample> {
    if samples == [] then None else Some(samples[|samples| - 1])
  }

  function ReadSamples(env: Env, cmd: Command, items: seq<Value>): (r: Result<seq<Sample>>)
    ensures r.Ok? ==> |r.value| == |items| && forall i :: 0 <= i < |items| ==> |r.value[i].values| == |cmd.axes|
    decreases |items|
  {
    if items == [] then Ok([])
    else
      var n := |items| - 1;
      var before := ReadSamples(env, cmd, items[..n]);
      if before.Err? then before
      else
        var s := ReadSample(env, cmd, Last(before.value), items[n]);
        if s.Err? then Err(s.code) else Ok(before.value + [s.value])
  }

  function CompileSamples(env: Env, cmd: Command, raw: Value): Result<seq<Sample>> {
    if !raw.Array? || |raw.items| < 2 then Err(SchemaInvalid) else ReadSamples(env, cmd, raw.items)
  }

  /** The loop that carries the previous sample along. */
  method CompileDenseSamples(env: Env, raw: Value, cmd: Command) returns (r: Result<seq<Sample>>)
    ensures r == CompileSamples(env, cmd, raw)
  {
    hide ReadSample;
    if !raw.Array? || |raw.items| < 2 { return Err(SchemaInvalid); }
    var items, result, previous := raw.items, [], None;
    for i := 0 to |items|
      invariant previous == Last(result)
      invariant ReadSamples(env, cmd, items[..i]) == Ok(result)
    {
      assert items[..i + 1][..i] == items[..i];
      var sample := ReadSample(env, cmd, previous, items[i]);
      if sample.Err? {
        ErrorPersists(env, cmd, items, i + 1);
        return Err(sample.code);
      }
      result, previous := result + [sample.value], Some(sample.value);
    }
    assert items[..|items|] == items;
    return Ok(result);
  }

  /** A rejected sample rejects the sequence, whatever follows it. */
  lemma {:induction false} ErrorPersists(env: Env, cmd: Command, items: seq<Value>, n: nat)
    requires n <= |items| && ReadSamples(env, cmd, items[..n]).Err?
    ensures ReadSamples(env, cmd, items) == ReadSamples(env, cmd, items[..n])
    decreases |items|
  {
    if n == |items| {
      assert items[..n] == items;
    } else {
      var shorter := items[..|items| - 1];
      assert shorter[..n] == items[..n];
      ErrorPersists(env, cmd, shorter, n);
    }
  }

  predicate SamplesDenote(env: Env, items: seq<Value>, samples: seq<Sample>) {
    |items| == |samples| && forall i :: 0 <= i < |items| ==> SampleDenotes(env, items[i], samples[i])
  }

  lemma DenseGrows(cmd: Command, samples: seq<Sample>, s: Sample)
    ensures Dense(cmd, samples + [s]) <==> Dense(cmd, samples) && Follows(cmd, Last(samples), s)
  {
    hide ValuesOk, StepOk, StartsAtZero;
    var more, n := samples + [s], |samples|;
    assert more[n] == s && forall i :: 0 <= i < n ==> more[i] == samples[i];
    if Dense(cmd, more) {
      assert forall i :: 0 <= i < n - 1 ==> StepOk(cmd, more[i], more[i + 1]);
      assert 0 < n ==> StepOk(cmd, more[n - 1], more[n]);
      assert ValuesOk(cmd, more[n].values);
    }
  }

  lemma LastIsLate(cmd: Command, samples: seq<Sample>)
    requires Dense(cmd, samples)
    ensures samples != [] ==> 0 <= samples[|samples| - 1].tUs
  {
    hide ValuesOk, StepOk, StartsAtZero;
    if 1 < |samples| { SampleTimesIncrease(cmd, samples, 0, |samples| - 1); }
  }

  /** Reading succeeds exactly for the samples that the values denote, when these form a
      dense, ordered, limited trajectory. */
  lemma {:induction false} ReadSamplesIff(env: Env, cmd: Command, items: seq<Value>, samples: seq<Sample>)
    ensures ReadSamples(env, cmd, items) == Ok(samples) <==> SamplesDenote(env, items, samples) && Dense(cmd, samples)
    decreases |items|
  {
    hide ReadSample, SampleDenotes, Follows, Dense;
    if items == [] {
      EmptyIsDense(cmd);
    } else if samples != [] {
      var n, m := |items| - 1, |samples| - 1;
      var front, s := samples[..m], samples[m];
      assert samples == front + [s];
      ReadSamplesIff(env, cmd, items[..n], front);
      DenseGrows(cmd, front, s);
      SamplesDenoteSplit(env, items, samples);
      if Dense(cmd, front) && n == m {
        DimensionsOf(cmd, front);
        LastIsLate(cmd, front);
        ReadSampleIff(env, cmd, Last(front), items[n], s);
      }
      ReadSamplesSplit(env, cmd, items, front, s);
    }
  }

  lemma EmptyIsDense(cmd: Command)
    ensures Dense(cmd, [])
  {
  }

  lemma DimensionsOf(cmd: Command, samples: seq<Sample>)
    requires Dense(cmd, samples)
    ensures forall i :: 0 <= i < |samples| ==> |samples[i].values| == |cmd.axes|
  {
  }

  lemma SamplesDenoteSplit(env: Env, items: seq<Value>, samples: seq<Sample>)
    requires items != [] && samples != []
    ensures var n, m := |items| - 1, |samples| - 1;
            SamplesDenote(env, items, samples) <==>
              SamplesDenote(env, items[..n], samples[..m]) && SampleDenotes(env, items[n], samples[m])
  {
    hide SampleDenotes;
  }

  lemma ReadSamplesSplit(env: Env, cmd: Command, items: seq<Value>, front: seq<Sample>, s: Sample)
    requires items != []
    ensures ReadSamples(env, cmd, items) == Ok(front + [s]) <==>
              ReadSamples(env, cmd, items[..|items| - 1]) == Ok(front) &&
              (forall i :: 0 <= i < |front| ==> |front[i].values| == |cmd.axes|) &&
              ReadSample(env, cmd, Last(front), items[|items| - 1]) == Ok(s)
  {
    hide ReadSample;
    var n := |items| - 1;
    var before := ReadSamples(env, cmd, items[..n]);
    if ReadSamples(env, cmd, items) == Ok(front + [s]) {
      var last := ReadSample(env, cmd, Last(before.value), items[n]);
      assert (before.value + [last.value])[..|front|] == before.value && (front + [s])[..|front|] == front;
      assert (before.value + [last.value])[|front|] == last.value;
    }
  }

  // ---------- one sequence ----------

  function Tags(axes: seq<Axis>): (tags: seq<AxisTag>)
    ensures |tags| == |axes|
  {
    seq(|axes|, i requires 0 <= i < |axes| => AxisTag(axes[i].name, axes[i].kind, axes[i].unit))
  }

  function CompileSequence(env: Env, view: View, root: string, raw: Value): Result<Track> {
    if !ExactFields(raw, {Group, CommandSchema, Reference, Samples}, {}) then Err(SchemaInvalid)
    else if !raw.fields[Group].Text? || !ProperPath(raw.fields[Group].s) then Err(SchemaInvalid)
    else
      var path := raw.fields[Group].s;
      var resolved := view.resolve(root, path);
      if resolved.None? then Err(GroupNotFound)
      else
        var Resolution(target, schemas, axes) := resolved.value;
        var schema := Str(env, raw.fields[CommandSchema]);
        var reference := Str(env, raw.fields[Reference]);
        if schema !in schemas || schema !in {POSITION_SCHEMA, NORMALIZED_SCHEMA} then Err(CapabilityMissing)
        else if reference !in {ABSOLUTE, RELATIVE} then Err(SchemaInvalid)
        else if axes == [] then Err(InvalidManifest)
        else
          var samples := CompileSamples(env, Command(axes, reference, schema), raw.fields[Samples]);
          if samples.Err? then Err(samples.code)
          else Ok(Track(path, target, schema, reference, Tags(axes), samples.value))
  }

  predicate SequenceDenotes(env: Env, raw: Value, track: Track) {
    ExactFields(raw, {Group, CommandSchema, Reference, Samples}, {}) &&
    raw.fields[Group] == Text(track.rolePath) &&
    Str(env, raw.fields[CommandSchema]) == track.schema &&
    Str(env, raw.fields[Reference]) == track.reference &&
    raw.fields[Samples].Array? && SamplesDenote(env, raw.fields[Samples].items, track.samples)
  }

  /** A track commands the group its role path resolves to, with that group's axes, in a
      schema the group supports, by a dense trajectory of at least two samples. */
  predicate TrackOk(view: View, root: string, track: Track) {
    ProperPath(track.rolePath) && view.resolve(root, track.rolePath).Some? &&
    var Resolution(target, schemas, axes) := view.resolve(root, track.rolePath).value;
    track.target == target && track.schema in schemas && track.schema in {POSITION_SCHEMA, NORMALIZED_SCHEMA} &&
    track.reference in {ABSOLUTE, RELATIVE} && axes != [] && track.axes == Tags(axes) &&
    2 <= |track.samples| && Dense(Command(axes, track.reference, track.schema), track.samples)
  }

  lemma CompileSamplesIff(env: Env, cmd: Command, raw: Value, samples: seq<Sample>)
    ensures CompileSamples(env, cmd, raw) == Ok(samples) <==>
              raw.Array? && SamplesDenote(env, raw.items, samples) && 2 <= |samples| && Dense(cmd, samples)
  {
    hide ReadSamples, Dense, SampleDenotes;
    if raw.Array? { ReadSamplesIff(env, cmd, raw.items, samples); }
  }

  lemma CompileSequenceIff(env: Env, view: View, root: string, raw: Value, track: Track)
    ensures CompileSequence(env, view, root, raw) == Ok(track) <==>
              SequenceDenotes(env, raw, track) && TrackOk(view, root, track)
  {
    hide CompileSamples, SamplesDenote, Dense, ProperPath, Tags;
    if ExactFields(raw, {Group, CommandSchema, Reference, Samples}, {}) && raw.fields[Group].Text? &&
       view.resolve(root, raw.fields[Group].s).Some? {
      var cmd := Command(view.resolve(root, raw.fields[Group].s).value.axes, Str(env, raw.fields[Reference]),
                         Str(env, raw.fields[CommandSchema]));
      CompileSamplesIff(env, cmd, raw.fields[Samples], track.samples);
    }
  }

  // ---------- one phase ----------

  predicate Targeted(tracks: seq<Track>, target: Target) {
    exists i :: 0 <= i < |tracks| && tracks[i].target == target
  }

  function CompileTracks(env: Env, view: View, root: string, items: seq<Value>): (r: Result<seq<Track>>)
    ensures r.Ok? ==> |r.value| == |items|
    decreases |items|
  {
    if items == [] then Ok([])
    else
      var n := |items| - 1;
      var before := CompileTracks(env, view, root, items[..n]);
      if before.Err? then before
      else
        var track := CompileSequence(env, view, root, items[n]);
        if track.Err? then Err(track.code)
        else if Targeted(before.value, track.value.target) then Err(DuplicateGroupSequence)
        else Ok(before.value + [track.value])
  }

  predicate TracksDenote(env: Env, items: seq<Value>, tracks: seq<Track>) {
    |items| == |tracks| && forall i :: 0 <= i < |items| ==> SequenceDenotes(env, items[i], tracks[i])
  }

  predicate DistinctTargets(tracks: seq<Track>) {
    forall i, k :: 0 <= i < k < |tracks| ==> tracks[i].target != tracks[k].target
  }

  predicate TracksOk(view: View, root: string, tracks: seq<Track>) {
    DistinctTargets(tracks) && forall i :: 0 <= i < |tracks| ==> TrackOk(view, root, tracks[i])
  }

  lemma {:induction false} CompileTracksIff(env: Env, view: View, root: string, items: seq<Value>, tracks: seq<Track>)
    ensures CompileTracks(env, view, root, items) == Ok(tracks) <==>
              TracksDenote(env, items, tracks) && TracksOk(view, root, tracks)
    decreases |items|
  {
    hide CompileSequence, SequenceDenotes, TrackOk;
    if items != [] && tracks != [] {
      var n, m := |items| - 1, |tracks| - 1;
      CompileTracksIff(env, view, root, items[..n], tracks[..m]);
      CompileSequenceIff(env, view, root, items[n], tracks[m]);
      assert tracks == tracks[..m] + [tracks[m]];
      TracksOkSplit(view, root, tracks);
      CompileTracksSplit(env, view, root, items, tracks[..m], tracks[m]);
    }
  }

  lemma TracksOkSplit(view: View, root: string, tracks: seq<Track>)
    requires tracks != []
    ensures var m := |tracks| - 1;
            TracksOk(view, root, tracks) <==>
              TracksOk(view, root, tracks[..m]) && TrackOk(view, root, tracks[m]) &&
              !Targeted(tracks[..m], tracks[m].target)
  {
    hide TrackOk;
    var m := |tracks| - 1;
    assert forall i :: 0 <= i < m ==> tracks[..m][i] == tracks[i];
  }

  lemma CompileTracksSplit(env: Env, view: View, root: string, items: seq<Value>, front: seq<Track>, track: Track)
    requires items != []
    ensures CompileTracks(env, view, root, items) == Ok(front + [track]) <==>
              CompileTracks(env, view, root, items[..|items| - 1]) == Ok(front) &&
              CompileSequence(env, view, root, items[|items| - 1]) == Ok(track) && !Targeted(front, track.target)
  {
    hide CompileSequence, Targeted;
    var n := |items| - 1;
    var before := CompileTracks(env, view, root, items[..n]);
    if CompileTracks(env, view, root, items) == Ok(front + [track]) {
      var last := CompileSequence(env, view, root, items[n]);
      assert (before.value + [last.value])[..|front|] == before.value && (front + [track])[..|front|] == front;
      assert (before.value + [last.value])[|front|] == last.value;
    }
  }

  /** The time of the last sample. */
  function TrackDuration(track: Track): int {
    if track.samples == [] then 0 else track.samples[|track.samples| - 1].tUs
  }

  /** The longest of the tracks' durations. */
  function Longest(tracks: seq<Track>): (us: int)
    ensures 0 <= us && forall i :: 0 <= i < |tracks| ==> TrackDuration(tracks[i]) <= us
    ensures us == 0 || exists i :: 0 <= i < |tracks| && TrackDuration(tracks[i]) == us
  {
    if tracks == [] then 0
    else
      var n := |tracks| - 1;
      var before, last := Longest(tracks[..n]), TrackDuration(tracks[n]);
      assert forall i :: 0 <= i < n ==> tracks[..n][i] == tracks[i];
      if before < last then last else before
  }

  /** The loop over a phase's sequences: commanded groups and the longest duration so far. */
  method CompileSequences(env: Env, view: View, root: string, items: seq<Value>)
    returns (r: Result<seq<Track>>, durationUs: int)
    ensures r == CompileTracks(env, view, root, items)
    ensures r.Ok? ==> durationUs == Longest(r.value)
  {
    hide CompileSequence;
    var tracks: seq<Track>, targets: set<Target> := [], {};
    durationUs := 0;
    for i := 0 to |items|
      invariant CompileTracks(env, view, root, items[..i]) == Ok(tracks)
      invariant forall t :: t in targets <==> Targeted(tracks, t)
      invariant durationUs == Longest(tracks)
    {
      assert items[..i + 1][..i] == items[..i];
      var track := CompileSequence(env, view, root, items[i]);
      if track.Err? || track.value.target in targets {
        TrackErrorPersists(env, view, root, items, i + 1);
        return if track.Err? then Err(track.code) else Err(DuplicateGroupSequence), durationUs;
      }
      MoreTargets(tracks, track.value);
      targets := targets + {track.value.target};
      assert (tracks + [track.value])[..|tracks|] == tracks;
      if durationUs < TrackDuration(track.value) { durationUs := TrackDuration(track.value); }
      tracks := tracks + [track.value];
    }
    assert items[..|items|] == items;
    return Ok(tracks), durationUs;
  }

  lemma MoreTargets(tracks: seq<Track>, track: Track)
    ensures forall t :: Targeted(tracks + [track], t) <==> Targeted(tracks, t) || t == track.target
  {
    var more := tracks + [track];
    assert more[|tracks|] == track;
    forall t
      ensures Targeted(more, t) <==> Targeted(tracks, t) || t == track.target
    {
      if Targeted(tracks, t) {
        var i :| 0 <= i < |tracks| && tracks[i].target == t;
        assert more[i].target == t;
      }
    }
  }

  lemma {:induction false} TrackErrorPersists(env: Env, view: View, root: string, items: seq<Value>, n: nat)
    requires n <= |items| && CompileTracks(env, view, root, items[..n]).Err?
    ensures CompileTracks(env, view, root, items) == CompileTracks(env, view, root, items[..n])
    decreases |items|
  {
    hide CompileSequence;
    if n == |items| {
      assert items[..n] == items;
    } else {
      var shorter := items[..|items| - 1];
      assert shorter[..n] == items[..n];
      TrackErrorPersists(env, view, root, shorter, n);
    }
  }

  function CompilePhase(env: Env, view: View, root: string, raw: Value): Result<Phase> {
    if !ExactFields(raw, {PhaseId, Sequences}, {Completion, Transitions}) then Err(SchemaInvalid)
    else if !raw.fields[PhaseId].Text? || !ShortId(raw.fields[PhaseId].s) then Err(SchemaInvalid)
    else
      var completion := if Completion in raw.fields then raw.fields[Completion] else DEFAULT_COMPLETION;
      var transitions := if Transitions in raw.fields then raw.fields[Transitions] else Array([]);
      if !Same(completion, DEFAULT_COMPLETION) then Err(CapabilityMissing)
      else if !transitions.Array? then Err(SchemaInvalid)
      else if transitions.items != [] then Err(CapabilityMissing)
      else if !raw.fields[Sequences].Array? || raw.fields[Sequences].items == [] then Err(SchemaInvalid)
      else
        var tracks := CompileTracks(env, view, root, raw.fields[Sequences].items);
        if tracks.Err? then Err(tracks.code) else Ok(Phase(raw.fields[PhaseId].s, tracks.value))
  }

  predicate PhaseDenotes(env: Env, raw: Value, phase: Phase) {
    ExactFields(raw, {PhaseId, Sequences}, {Completion, Transitions}) &&
    raw.fields[PhaseId] == Text(phase.phaseId) &&
    (Completion in raw.fields ==> raw.fields[Completion] == DEFAULT_COMPLETION) &&
    (Transitions in raw.fields ==> raw.fields[Transitions] == Array([])) &&
    raw.fields[Sequences].Array? && TracksDenote(env, raw.fields[Sequences].items, phase.tracks)
  }

  predicate PhaseOk(view: View, root: string, phase: Phase) {
    ShortId(phase.phaseId) && phase.tracks != [] && TracksOk(view, root, phase.tracks)
  }

  /** The loose comparison with the default completion admits nothing else. */
  lemma OnlyDefault(v: Value)
    ensures Same(v, DEFAULT_COMPLETION) <==> v == DEFAULT_COMPLETION
  {
    SameIsReflexive(DEFAULT_COMPLETION);
    if Same(v, DEFAULT_COMPLETION) {
      assert v.Object? && v.fields.Keys == {Schema};
      assert Same(v.fields[Schema], Text("all_sequences_finished/v1"));
      assert v.fields == map[Schema := v.fields[Schema]];
    }
  }

  lemma CompilePhaseIff(env: Env, view: View, root: string, raw: Value, phase: Phase)
    ensures CompilePhase(env, view, root, raw) == Ok(phase) <==>
              PhaseDenotes(env, raw, phase) && PhaseOk(view, root, phase)
  {
    hide CompileTracks, TracksOk, SequenceDenotes, ShortId, Same;
    if raw.Object? && Completion in raw.fields { OnlyDefault(raw.fields[Completion]); }
    OnlyDefault(DEFAULT_COMPLETION);
    if raw.Object? && Sequences in raw.fields && raw.fields[Sequences].Array? {
      CompileTracksIff(env, view, root, raw.fields[Sequences].items, phase.tracks);
    }
  }

  // ---------- the whole program ----------

  predicate Used(phases: seq<Phase>, id: string) {
    exists i :: 0 <= i < |phases| && phases[i].phaseId == id
  }

  function CompilePhases(env: Env, view: View, root: string, items: seq<Value>): (r: Result<seq<Phase>>)
    ensures r.Ok? ==> |r.value| == |items|
    decreases |items|
  {
    if items == [] then Ok([])
    else
      var n := |items| - 1;
      var before := CompilePhases(env, view, root, items[..n]);
      if before.Err? then before
      else
        var phase := CompilePhase(env, view, root, items[n]);
        if phase.Err? then Err(phase.code)
        else if Used(before.value, phase.value.phaseId) then Err(DuplicatePhase)
        else Ok(before.value + [phase.value])
  }

  predicate PhasesDenote(env: Env, items: seq<Value>, phases: seq<Phase>) {
    |items| == |phases| && forall i :: 0 <= i < |items| ==> PhaseDenotes(env, items[i], phases[i])
  }

  predicate DistinctIds(phases: seq<Phase>) {
    forall i, k :: 0 <= i < k < |phases| ==> phases[i].phaseId != phases[k].phaseId
  }

  predicate PhasesOk(view: View, root: string, phases: seq<Phase>) {
    DistinctIds(phases) && forall i :: 0 <= i < |phases| ==> PhaseOk(view, root, phases[i])
  }

  lemma {:induction false} CompilePhasesIff(env: Env, view: View, root: string, items: seq<Value>, phases: seq<Phase>)
    ensures CompilePhases(env, view, root, items) == Ok(phases) <==>
              PhasesDenote(env, items, phases) && PhasesOk(view, root, phases)
    decreases |items|
  {
    hide CompilePhase, PhaseDenotes, PhaseOk;
    if items != [] && phases != [] {
      var n, m := |items| - 1, |phases| - 1;
      CompilePhasesIff(env, view, root, items[..n], phases[..m]);
      CompilePhaseIff(env, view, root, items[n], phases[m]);
      assert phases == phases[..m] + [phases[m]];
      PhasesOkSplit(view, root, phases);
      CompilePhasesSplit(env, view, root, items, phases[..m], phases[m]);
    }
  }

  lemma PhasesOkSplit(view: View, root: string, phases: seq<Phase>)
    requires phases != []
    ensures var m := |phases| - 1;
            PhasesOk(view, root, phases) <==>
              PhasesOk(view, root, phases[..m]) && PhaseOk(view, root, phases[m]) &&
              !Used(phases[..m], phases[m].phaseId)
  {
    hide PhaseOk;
    var m := |phases| - 1;
    assert forall i :: 0 <= i < m ==> phases[..m][i] == phases[i];
  }

  lemma CompilePhasesSplit(env: Env, view: View, root: string, items: seq<Value>, front: seq<Phase>, phase: Phase)
    requires items != []
    ensures CompilePhases(env, view, root, items) == Ok(front + [phase]) <==>
              CompilePhases(env, view, root, items[..|items| - 1]) == Ok(front) &&
              CompilePhase(env, view, root, items[|items| - 1]) == Ok(phase) && !Used(front, phase.phaseId)
  {
    hide CompilePhase, Used;
    var n := |items| - 1;
    var before := CompilePhases(env, view, root, items[..n]);
    if CompilePhases(env, view, root, items) == Ok(front + [phase]) {
      var last := CompilePhase(env, view, root, items[n]);
      assert (before.value + [last.value])[..|front|] == before.value && (front + [phase])[..|front|] == front;
      assert (before.value + [last.value])[|front|] == last.value;
    }
  }

  function HeaderFault(view: View, template: Value): (fault: Option<Code>)
    ensures fault.None? ==>
              ExactFields(template, {Format, Version, RootId, Phases}, {ProgramId}) &&
              template.fields[RootId].Text? && template.fields[Phases].Array?
  {
    if !ExactFields(template, {Format, Version, RootId, Phases}, {ProgramId}) then Some(SchemaInvalid)
    else if !Same(template.fields[Format], Text(TEMPLATE_FORMAT)) ||
            !Same(template.fields[Version], Int(PROGRAM_VERSION))
    then Some(VersionUnsupported)
    else if !template.fields[RootId].Text? || !ShortId(template.fields[RootId].s) then Some(SchemaInvalid)
    else if view.exposed(template.fields[RootId].s).None? then Some(UnknownRoot)
    else if !view.exposed(template.fields[RootId].s).value then Some(RootNotExposed)
    else if !template.fields[Phases].Array? || template.fields[Phases].items == [] then Some(SchemaInvalid)
    else None
  }

  function ProgramIdOf(template: Value): Value {
    if template.Object? && ProgramId in template.fields then template.fields[ProgramId] else Text("program")
  }

  function Compile(env: Env, view: View, template: Value): Result<Program> {
    var fault := HeaderFault(view, template);
    if fault.Some? then Err(fault.value)
    else
      var root := template.fields[RootId].s;
      var phases := CompilePhases(env, view, root, template.fields[Phases].items);
      if phases.Err? then Err(phases.code)
      else
        var id := ProgramIdOf(template);
        if !id.Text? || !ShortId(id.s) then Err(SchemaInvalid)
        else Ok(Program(id.s, view.serverId, root, view.manifestHash(root), phases.value))
  }

  /** The loop over a template's phases, remembering the phase ids seen. */
  method CompileTemplate(env: Env, view: View, template: Value) returns (r: Result<Program>)
    ensures r == Compile(env, view, template)
  {
    hide CompilePhase, HeaderFault, ShortId;
    var fault := HeaderFault(view, template);
    if fault.Some? { return Err(fault.value); }
    var root, items := template.fields[RootId].s, template.fields[Phases].items;
    var phases: seq<Phase>, seen: set<string> := [], {};
    for i := 0 to |items|
      invariant CompilePhases(env, view, root, items[..i]) == Ok(phases)
      invariant forall id :: id in seen <==> Used(phases, id)
    {
      assert items[..i + 1][..i] == items[..i];
      var phase := CompilePhase(env, view, root, items[i]);
      if phase.Err? || phase.value.phaseId in seen {
        PhaseErrorPersists(env, view, root, items, i + 1);
        return if phase.Err? then Err(phase.code) else Err(DuplicatePhase);
      }
      MoreIds(phases, phase.value);
      seen := seen + {phase.value.phaseId};
      phases := phases + [phase.value];
    }
    assert items[..|items|] == items;
    var id := ProgramIdOf(template);
    if !id.Text? || !ShortId(id.s) { return Err(SchemaInvalid); }
    return Ok(Program(id.s, view.serverId, root, view.manifestHash(root), phases));
  }

  lemma MoreIds(phases: seq<Phase>, phase: Phase)
    ensures forall id :: Used(phases + [phase], id) <==> Used(phases, id) || id == phase.phaseId
  {
    var more := phases + [phase];
    assert more[|phases|] == phase;
    forall id
      ensures Used(more, id) <==> Used(phases, id) || id == phase.phaseId
    {
      if Used(phases, id) {
        var i :| 0 <= i < |phases| && phases[i].phaseId == id;
        assert more[i].phaseId == id;
      }
    }
  }

  lemma {:induction false} PhaseErrorPersists(env: Env, view: View, root: string, items: seq<Value>, n: nat)
    requires n <= |items| && CompilePhases(env, view, root, items[..n]).Err?
    ensures CompilePhases(env, view, root, items) == CompilePhases(env, view, root, items[..n])
    decreases |items|
  {
    hide CompilePhase;
    if n == |items| {
      assert items[..n] == items;
    } else {
      var shorter := items[..|items| - 1];
      assert shorter[..n] == items[..n];
      PhaseErrorPersists(env, view, root, shorter, n);
    }
  }

  /** What a template says, as far as it can be said in a program. */
  predicate TemplateDenotes(env: Env, template: Value, p: Program) {
    ExactFields(template, {Format, Version, RootId, Phases}, {ProgramId}) &&
    Same(template.fields[Format], Text(TEMPLATE_FORMAT)) && Same(template.fields[Version], Int(PROGRAM_VERSION)) &&
    template.fields[RootId] == Text(p.rootId) && ProgramIdOf(template) == Text(p.programId) &&
    template.fields[Phases].Array? && PhasesDenote(env, template.fields[Phases].items, p.phases)
  }

  predicate ProgramOk(view: View, p: Program) {
    p.serverId == view.serverId && p.manifestHash == view.manifestHash(p.rootId) &&
    ShortId(p.rootId) && ShortId(p.programId) && view.exposed(p.rootId) == Some(true) &&
    p.phases != [] && PhasesOk(view, p.rootId, p.phases)
  }

  /** Compilation yields exactly the program the template denotes, exactly when that
      program is good for the registry. */
  lemma CompileIff(env: Env, view: View, template: Value, p: Program)
    ensures Compile(env, view, template) == Ok(p) <==> TemplateDenotes(env, template, p) && ProgramOk(view, p)
  {
    hide CompilePhases, PhasesOk, PhaseDenotes, ShortId, Same;
    if HeaderFault(view, template).None? {
      CompilePhasesIff(env, view, template.fields[RootId].s, template.fields[Phases].items, p.phases);
    }
  }

  /** Two views that agree on a root compile every template of that root alike. */
  lemma ViewsAgree(env: Env, v: View, w: View, template: Value, root: string, p: Program)
    requires v.serverId == w.serverId && v.exposed(root) == w.exposed(root) &&
             v.manifestHash(root) == w.manifestHash(root)
    requires forall path :: ProperPath(path) ==> v.resolve(root, path) == w.resolve(root, path)
    requires Get(template, RootId) == Some(Text(root))
    ensures Compile(env, v, template) == Ok(p) <==> Compile(env, w, template) == Ok(p)
  {
    hide Compile, PhasesDenote, ShortId, Same, PhasesOk;
    CompileIff(env, v, template, p);
    CompileIff(env, w, template, p);
    if p.rootId == root { SamePhases(v, w, root, p.phases); }
  }

  lemma SamePhases(v: View, w: View, root: string, phases: seq<Phase>)
    requires forall path :: ProperPath(path) ==> v.resolve(root, path) == w.resolve(root, path)
    ensures PhasesOk(v, root, phases) <==> PhasesOk(w, root, phases)
  {
    hide Dense, ProperPath;
    forall track: Track
      ensures TrackOk(v, root, track) <==> TrackOk(w, root, track)
    {
    }
  }
}
