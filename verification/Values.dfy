/** Structured values as JSON, TOML and CBOR decoding produce them, and how Python
    reads and compares them. */
module Values {
  import opened Wrappers

  datatype Result<+T> = Ok(value: T) | Err(code: Code)

  datatype Code =
    | SchemaInvalid | VersionUnsupported | UnknownRoot | RootNotExposed | DuplicatePhase | CapabilityMissing
    | DuplicateGroupSequence | InvalidManifest | GroupNotFound | InvalidTime | DenseAxisMismatch | NonFiniteValue
    | StartStateMismatch | LimitViolation | VelocityLimit | AccelerationLimit
    | HashMismatch | InvalidArtifact | ServerMismatch | ManifestMismatch | NoncanonicalArtifact | InvalidCbor
    | Uncaught  // a KeyError, TypeError or AttributeError that no handler turns into a code

  datatype Field =
    | Format | Version | ProgramId | RootId | Phases | PhaseId | Sequences | Completion | Transitions | Schema
    | Group | CommandSchema | Reference | Samples | TUs | Positions
    | ServerId | ManifestHash | Outline | OutlineSha | PhaseCount | DurationUs | Participants | PayloadSha | Sha
    | RolePathKey | ResolvedTarget | PhysicalNodeId | GroupId | Axes | Name | Kind | Unit | Body
    | Unknown(name: string)

  datatype Value =
    | Null
    | Bool(b: bool)
    | Int(n: int)
    | Real(r: real)
    | NonFinite(isNan: bool, positive: bool)
    | Text(s: string)
    | Array(items: seq<Value>)
    | Object(fields: map<Field, Value>)

  function Get(v: Value, f: Field): Option<Value> {
    if v.Object? && f in v.fields then Some(v.fields[f]) else None
  }

  predicate ExactFields(v: Value, required: set<Field>, optional: set<Field>) {
    v.Object? && required <= v.fields.Keys <= required + optional
  }

  predicate Numeric(v: Value) { v.Bool? || v.Int? || v.Real? }

  function Number(v: Value): real
    requires Numeric(v)
  {
    match v
    case Bool(b) => if b then 1.0 else 0.0
    case Int(n) => n as real
    case Real(r) => r
  }

  /** Python's `==`: true, 1 and 1.0 are equal, and so are containers of equal values. */
  predicate Same(a: Value, b: Value)
    decreases a
  {
    if Numeric(a) && Numeric(b) then Number(a) == Number(b)
    else if a.Array? && b.Array? then
      |a.items| == |b.items| && forall i :: 0 <= i < |a.items| ==> Same(a.items[i], b.items[i])
    else if a.Object? && b.Object? then
      a.fields.Keys == b.fields.Keys && forall f :: f in a.fields ==> Same(a.fields[f], b.fields[f])
    else a == b
  }

  lemma {:induction false} SameIsReflexive(v: Value)
    ensures Same(v, v)
    decreases v
  {
    match v
    case Array(items) => forall i | 0 <= i < |items| { SameIsReflexive(items[i]); }
    case Object(fields) => forall f | f in fields { SameIsReflexive(fields[f]); }
    case _ =>
  }

  /** What lies outside the model: hashing, conversion to text and to floating point. */
  datatype Env = Env(
    digest: Value -> string,
    textOf: Value -> string,
    floatOfInt: int -> Float,
    floatOfText: string -> Float)

  datatype Float = Finite(r: real) | Infinite | NotNumeric

  /** Python's `str`. */
  function Str(env: Env, v: Value): string {
    if v.Text? then v.s else env.textOf(v)
  }

  /** Python's `float`; a floating-point number is left as it is. */
  function ToFloat(env: Env, v: Value): Float {
    match v
    case Int(n) => env.floatOfInt(n)
    case Real(r) => Finite(r)
    case NonFinite(_, _) => Infinite
    case Text(s) => env.floatOfText(s)
    case _ => NotNumeric
  }

  /** The first failing check, if any. */
  function FirstError(checks: seq<Option<Code>>): (e: Option<Code>)
    ensures e.None? <==> forall i :: 0 <= i < |checks| ==> checks[i].None?
  {
    if checks == [] then None
    else if checks[0].Some? then checks[0]
    else
      var e := FirstError(checks[1..]);
      assert forall i :: 1 <= i < |checks| ==> checks[i] == checks[1..][i - 1];
      e
  }
}
