/** Why a template is refused: each code of the compiler has exactly one meaning, the first
    check that fails (remote_robot/program.py). */
module Refusals {
  import opened Wrappers
  import opened Values
  import opened Compiler
  import Protocol

  // ---------- samples ----------

  predicate GoodTime(previous: Option<Sample>, t: Value) {
    t.Int? && (if previous.None? then t.n == 0 else previous.value.tUs < t.n) && 0 <= t.n
  }

  /** One list entry per axis, none of them a boolean or text that is no number. */
  predicate RightLength(raw: Value, dimension: nat) {
    raw.Array? && |raw.items| == dimension
  }

  predicate AllNumbers(env: Env, items: seq<Value>) {
    forall i :: 0 <= i < |items| ==> !items[i].Bool? && !ToFloat(env, items[i]).NotNumeric?
  }

  predicate AllFinite(env: Env, items: seq<Value>) {
    forall i :: 0 <= i < |items| ==> ToFloat(env, items[i]).Finite?
  }

  /** The values that a finite list of numbers stands for. */
  function Numbers(env: Env, items: seq<Value>): (values: seq<real>)
    requires AllFinite(env, items)
    ensures |values| == |items| && forall i :: 0 <= i < |items| ==> ToFloat(env, items[i]) == Finite(values[i])
  {
    seq(|items|, i requires 0 <= i < |items| => ToFloat(env, items[i]).r)
  }

  /** The first axis on which a step is too fast or too hard. */
  predicate FirstTooFast(cmd: Command, from: seq<real>, to: seq<real>, us: int, a: nat)
    requires 0 < us && |from| == |to| == |cmd.axes|
  {
    a < |cmd.axes| && !RatesOk(cmd.axes[a], from[a], to[a], us) &&
    forall b :: 0 <= b < a ==> RatesOk(cmd.axes[b], from[b], to[b], us)
  }

  lemma {:induction false} RateCode(cmd: Command, from: seq<real>, to: seq<real>, us: int, i: nat, a: nat)
    requires 0 < us && i <= |cmd.axes| == |from| == |to| && i <= a && FirstTooFast(cmd, from, to, us, a)
    ensures RateFault(cmd.axes, from, to, us, i) ==
            Some(if VelocityOk(cmd.axes[a], from[a], to[a], Protocol.Seconds(us)) then AccelerationLimit
                 else VelocityLimit)
    decreases a - i
  {
    hide VelocityOk, AccelerationOk;
    if i < a {
      assert RatesOk(cmd.axes[i], from[i], to[i], us);
      RateCode(cmd, from, to, us, i + 1, a);
    }
  }

  lemma ValuesCode(env: Env, dimension: nat, raw: Value)
    ensures var r := ReadValues(env, dimension, raw);
            (r == Err(DenseAxisMismatch) <==> !RightLength(raw, dimension)) &&
            (r == Err(SchemaInvalid) <==> RightLength(raw, dimension) && !AllNumbers(env, raw.items)) &&
            (r == Err(NonFiniteValue) <==>
               RightLength(raw, dimension) && AllNumbers(env, raw.items) && !AllFinite(env, raw.items)) &&
            (r.Ok? <==> RightLength(raw, dimension) && AllNumbers(env, raw.items) && AllFinite(env, raw.items)) &&
            (r.Ok? ==> r.value == Numbers(env, raw.items)) &&
            (r.Err? ==> r.code in {DenseAxisMismatch, SchemaInvalid, NonFiniteValue})
  {
    hide ToFloat;
    if RightLength(raw, dimension) {
      var items := raw.items;
      assert AllNumbers(env, items) <==>
             !(exists i :: 0 <= i < dimension && items[i].Bool?) &&
             !(exists i :: 0 <= i < dimension && ToFloat(env, items[i]).NotNumeric?);
    }
  }

  /** A sample is refused with exactly the code of the first thing wrong with it: its fields,
      its time, its dimension, its numbers, its start, its limits, or the rates of the
      step from the sample before. */
  lemma SampleCode(env: Env, cmd: Command, previous: Option<Sample>, raw: Value)
    requires previous.Some? ==> |previous.value.values| == |cmd.axes| && 0 <= previous.value.tUs
    ensures var r := ReadSample(env, cmd, previous, raw);
            if !raw.Object? || raw.fields.Keys != {TUs, Positions} then r == Err(SchemaInvalid)
            else if !GoodTime(previous, raw.fields[TUs]) then r == Err(InvalidTime)
            else if !RightLength(raw.fields[Positions], |cmd.axes|) then r == Err(DenseAxisMismatch)
            else if !AllNumbers(env, raw.fields[Positions].items) then r == Err(SchemaInvalid)
            else if !AllFinite(env, raw.fields[Positions].items) then r == Err(NonFiniteValue)
            else
              var values := Numbers(env, raw.fields[Positions].items);
              if cmd.reference == RELATIVE && previous.None? && !StartsAtZero(values) then r == Err(StartStateMismatch)
              else if !ValuesOk(cmd, values) then r == Err(LimitViolation)
              else
                previous.Some? ==>
                  var us := raw.fields[TUs].n - previous.value.tUs;
                  forall a: nat :: FirstTooFast(cmd, previous.value.values, values, us, a) ==>
                    r == Err(if VelocityOk(cmd.axes[a], previous.value.values[a], values[a],
                                           Protocol.Seconds(us))
                             then AccelerationLimit else VelocityLimit)
  {
    hide AllNumbers, AllFinite, StartsAtZero, ValuesOk, RatesOk, VelocityOk, ReadValues;
    if raw.Object? && raw.fields.Keys == {TUs, Positions} && GoodTime(previous, raw.fields[TUs]) {
      ValuesCode(env, |cmd.axes|, raw.fields[Positions]);
      if previous.Some? && RightLength(raw.fields[Positions], |cmd.axes|) &&
         AllFinite(env, raw.fields[Positions].items) {
        var values, us := Numbers(env, raw.fields[Positions].items), raw.fields[TUs].n - previous.value.tUs;
        forall a: nat | FirstTooFast(cmd, previous.value.values, values, us, a)
          ensures RateFault(cmd.axes, previous.value.values, values, us, 0) ==
                  Some(if VelocityOk(cmd.axes[a], previous.value.values[a], values[a], Protocol.Seconds(us))
                       then AccelerationLimit else VelocityLimit)
        {
          RateCode(cmd, previous.value.values, values, us, 0, a);
        }
      }
    }
  }

  // ---------- sequences, phases, templates ----------

  predicate HasFields(raw: Value, required: set<Field>, optional: set<Field>) {
    raw.Object? && (forall f :: f in required ==> f in raw.fields) &&
    forall f :: f in raw.fields ==> f in required || f in optional
  }

  /** A sequence is refused for its fields, its path, its target, its schema, its reference
      or its samples, in this order. */
  lemma SequenceCode(env: Env, view: View, root: string, raw: Value)
    ensures var r := CompileSequence(env, view, root, raw);
            if !HasFields(raw, {Group, CommandSchema, Reference, Samples}, {}) then r == Err(SchemaInvalid)
            else if !raw.fields[Group].Text? || !ProperPath(raw.fields[Group].s) then r == Err(SchemaInvalid)
            else if view.resolve(root, raw.fields[Group].s).None? then r == Err(GroupNotFound)
            else
              var Resolution(target, schemas, axes) := view.resolve(root, raw.fields[Group].s).value;
              var schema, reference := Str(env, raw.fields[CommandSchema]), Str(env, raw.fields[Reference]);
              if schema !in schemas then r == Err(CapabilityMissing)
              else if schema != "joint_position_trajectory/v1" && schema != "normalized_position_trajectory/v1"
              then r == Err(CapabilityMissing)
              else if reference != "absolute" && reference != "phase_start_measured" then r == Err(SchemaInvalid)
              else if axes == [] then r == Err(InvalidManifest)
              else if !raw.fields[Samples].Array? || |raw.fields[Samples].items| < 2 then r == Err(SchemaInvalid)
              else
                var samples := ReadSamples(env, Command(axes, reference, schema), raw.fields[Samples].items);
                r.Ok? == samples.Ok? && (samples.Err? ==> r == Err(samples.code))
  {
    hide ProperPath, ReadSamples, Tags;
  }

  /** A phase is refused for its fields, its id, its completion, its transitions or its
      sequences, in this order. */
  lemma PhaseCode(env: Env, view: View, root: string, raw: Value)
    ensures var r := CompilePhase(env, view, root, raw);
            if !HasFields(raw, {PhaseId, Sequences}, {Completion, Transitions}) then r == Err(SchemaInvalid)
            else if !raw.fields[PhaseId].Text? || !ShortId(raw.fields[PhaseId].s) then r == Err(SchemaInvalid)
            else if Completion in raw.fields && raw.fields[Completion] != DEFAULT_COMPLETION
              then r == Err(CapabilityMissing)
            else if Transitions in raw.fields && !raw.fields[Transitions].Array? then r == Err(SchemaInvalid)
            else if Transitions in raw.fields && raw.fields[Transitions].items != [] then r == Err(CapabilityMissing)
            else if !raw.fields[Sequences].Array? || raw.fields[Sequences].items == [] then r == Err(SchemaInvalid)
            else
              var tracks := CompileTracks(env, view, root, raw.fields[Sequences].items);
              r.Ok? == tracks.Ok? && (tracks.Err? ==> r == Err(tracks.code))
  {
    hide ShortId, CompileTracks, Same;
    OnlyDefault(DEFAULT_COMPLETION);
    if raw.Object? && Completion in raw.fields { OnlyDefault(raw.fields[Completion]); }
  }

  /** The sequence that comes first decides, and a target taken before is a duplicate. */
  lemma TracksCode(env: Env, view: View, root: string, items: seq<Value>, raw: Value)
    requires CompileTracks(env, view, root, items).Ok?
    ensures var before := CompileTracks(env, view, root, items).value;
            var track := CompileSequence(env, view, root, raw);
            CompileTracks(env, view, root, items + [raw]) ==
            if track.Err? then Err(track.code)
            else if exists i :: 0 <= i < |before| && before[i].target == track.value.target
              then Err(DuplicateGroupSequence)
            else Ok(before + [track.value])
  {
    hide CompileSequence;
    assert (items + [raw])[..|items|] == items;
  }

  lemma PhasesCode(env: Env, view: View, root: string, items: seq<Value>, raw: Value)
    requires CompilePhases(env, view, root, items).Ok?
    ensures var before := CompilePhases(env, view, root, items).value;
            var phase := CompilePhase(env, view, root, raw);
            CompilePhases(env, view, root, items + [raw]) ==
            if phase.Err? then Err(phase.code)
            else if exists i :: 0 <= i < |before| && before[i].phaseId == phase.value.phaseId then Err(DuplicatePhase)
            else Ok(before + [phase.value])
  {
    hide CompilePhase;
    assert (items + [raw])[..|items|] == items;
  }

  /** A template is refused for its fields, its format or version, its root, its phases or
      its program id, in this order. */
  lemma TemplateCode(env: Env, view: View, template: Value)
    ensures var r := Compile(env, view, template);
            if !HasFields(template, {Format, Version, RootId, Values.Phases}, {ProgramId}) then r == Err(SchemaInvalid)
            else if template.fields[Format] != Text("robot-program-template") ||
                    !Numeric(template.fields[Version]) || Number(template.fields[Version]) != 2.0
            then r == Err(VersionUnsupported)
            else if !template.fields[RootId].Text? || !ShortId(template.fields[RootId].s) then r == Err(SchemaInvalid)
            else if view.exposed(template.fields[RootId].s).None? then r == Err(UnknownRoot)
            else if view.exposed(template.fields[RootId].s) == Some(false) then r == Err(RootNotExposed)
            else if !template.fields[Values.Phases].Array? || template.fields[Values.Phases].items == []
              then r == Err(SchemaInvalid)
            else
              var phases := CompilePhases(env, view, template.fields[RootId].s, template.fields[Values.Phases].items);
              if phases.Err? then r == Err(phases.code)
              else if ProgramId in template.fields &&
                      (!template.fields[ProgramId].Text? || !ShortId(template.fields[ProgramId].s))
              then r == Err(SchemaInvalid)
              else r.Ok?
  {
    hide CompilePhases, ShortId;
    ProgramIsShort();
  }

  lemma ProgramIsShort()
    ensures ShortId("program")
  {
  }
}
