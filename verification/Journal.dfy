/** The append-only run journal and its recovery (remote_robot/journal.py).

    Canonical CBOR and SHA-256 are parameters.  The only hypotheses ever used about
    them are that decoding undoes encoding and that a digest has 32 bytes.
 */
module Journal {
  import opened Wrappers
  import Lease

  newtype Byte = n: int | 0 <= n < 256
  type Bytes = seq<Byte>

  const MAGIC: Bytes := [0x52, 0x52, 0x4a, 0x32]
  const MAX_FRAME_BYTES := 16 * 1024 * 1024
  const FORMAT_VERSION := 2

  datatype Item<E> = Item(runId: string, eventSeq: int, recordedAtNs: int, event: E)

  /** Whatever a decoder can produce, as far as the journal distinguishes it. */
  datatype Value<E> =
    | FileHeader
    | Record(version: int, item: Item<E>)
    | OtherMap
    | NotAMap

  datatype Codec<!E> = Codec(
    encode: Value<E> -> Bytes,   // no bytes at all where the encoder raises
    decode: Bytes -> Option<Value<E>>,
    sha256: Bytes -> Bytes,
    plain: E -> bool)   // no reserved field, no secret-like field, only plain data

  ghost predicate Faithful<E(!new)>(codec: Codec<E>) {
    (forall v :: codec.encode(v) != [] ==> codec.decode(codec.encode(v)) == Some(v)) &&
    (forall b :: |codec.sha256(b)| == 32) &&
    1 <= |codec.encode(FileHeader)| <= MAX_FRAME_BYTES
  }

  // ---------- frames ----------

  function BigEndian(n: int): Bytes
    requires 0 <= n < 0x1_0000_0000
  {
    [(n / 0x100_0000) as Byte, (n / 0x1_0000 % 0x100) as Byte, (n / 0x100 % 0x100) as Byte, (n % 0x100) as Byte]
  }

  function FromBigEndian(b: Bytes): (n: int)
    requires |b| == 4
    ensures 0 <= n < 0x1_0000_0000
  {
    b[0] as int * 0x100_0000 + b[1] as int * 0x1_0000 + b[2] as int * 0x100 + b[3] as int
  }

  lemma BigEndianRoundTrip(n: int)
    requires 0 <= n < 0x1_0000_0000
    ensures FromBigEndian(BigEndian(n)) == n
  {
    var a, b, c := n / 0x100_0000, n / 0x1_0000, n / 0x100;
    assert b / 0x100 == a && c / 0x100 == b;
  }

  function Frame<E>(codec: Codec<E>, v: Value<E>): Option<Bytes> {
    var payload := codec.encode(v);
    if 1 <= |payload| <= MAX_FRAME_BYTES
    then Some(BigEndian(|payload|) + codec.sha256(payload) + payload)
    else None
  }

  datatype Decoded<E> = End | Corrupt | Got(value: Value<E>, rest: Bytes)

  function DecodeFrame<E(==)>(codec: Codec<E>, data: Bytes): (d: Decoded<E>)
    ensures d.Got? ==> |d.rest| < |data|
  {
    if data == [] then End
    else if |data| < 4 then Corrupt
    else
      var size := FromBigEndian(data[..4]);
      if size == 0 || size > MAX_FRAME_BYTES then Corrupt
      else if |data| < 36 then Corrupt
      else if |data| < 36 + size then Corrupt
      else
        var checksum, payload := data[4..36], data[36..36 + size];
        if codec.sha256(payload) != checksum then Corrupt
        else
          var v := codec.decode(payload);
          if v.None? || v.value.NotAMap? then Corrupt
          else if codec.encode(v.value) != payload then Corrupt
          else Got(v.value, data[36 + size..])
  }

  lemma FrameShape<E(!new)>(codec: Codec<E>, v: Value<E>)
    requires Faithful(codec) && Frame(codec, v).Some?
    ensures var f := Frame(codec, v).value; var payload := codec.encode(v);
            |f| == 36 + |payload| && f[..4] == BigEndian(|payload|) &&
            f[4..36] == codec.sha256(payload) && f[36..] == payload
  {
  }

  lemma FramePrefix(f: Bytes, rest: Bytes)
    requires 36 <= |f|
    ensures (f + rest)[..4] == f[..4] && (f + rest)[4..36] == f[4..36]
    ensures (f + rest)[36..|f|] == f[36..] && (f + rest)[|f|..] == rest
  {
  }

  /** A frame followed by anything decodes to its value and leaves what follows. */
  lemma DecodeWhole<E(!new)>(codec: Codec<E>, v: Value<E>, rest: Bytes)
    requires Faithful(codec) && Frame(codec, v).Some? && !v.NotAMap?
    ensures DecodeFrame(codec, Frame(codec, v).value + rest) == Got(v, rest)
  {
    hide BigEndian, FromBigEndian, Frame;
    var f, payload := Frame(codec, v).value, codec.encode(v);
    FrameShape(codec, v);
    FrameSome(codec, v);
    FramePrefix(f, rest);
    BigEndianRoundTrip(|payload|);
  }

  lemma FrameSome<E>(codec: Codec<E>, v: Value<E>)
    requires Frame(codec, v).Some?
    ensures 1 <= |codec.encode(v)| <= MAX_FRAME_BYTES
  {
  }

  /** A frame cut anywhere inside is recognised as corrupt. */
  lemma DecodeCut<E(!new)>(codec: Codec<E>, v: Value<E>, n: nat)
    requires Faithful(codec) && Frame(codec, v).Some? && 0 < n < |Frame(codec, v).value|
    ensures DecodeFrame(codec, Frame(codec, v).value[..n]) == Corrupt
  {
    hide BigEndian, FromBigEndian, Frame;
    var f, payload := Frame(codec, v).value, codec.encode(v);
    FrameShape(codec, v);
    FrameSome(codec, v);
    BigEndianRoundTrip(|payload|);
    if 4 <= n { assert f[..n][..4] == f[..4]; }
  }

  // ---------- histories ----------

  type Histories<E> = map<string, seq<Item<E>>>

  function Of<E>(h: Histories<E>, run: string): seq<Item<E>> {
    if run in h then h[run] else []
  }

  function Add<E>(h: Histories<E>, item: Item<E>): Histories<E> {
    h[item.runId := Of(h, item.runId) + [item]]
  }

  /** The per-run histories of a log, whatever order the runs interleave in. */
  function ByRun<E>(log: seq<Item<E>>): Histories<E> {
    if log == [] then map[] else Add(ByRun(log[..|log| - 1]), log[|log| - 1])
  }

  predicate Next<E>(codec: Codec<E>, h: Histories<E>, item: Item<E>) {
    Lease.CanonicalKey(item.runId) && item.eventSeq == |Of(h, item.runId)| + 1 && 0 <= item.recordedAtNs &&
    codec.plain(item.event)
  }

  /** A log as appending produces it. */
  ghost predicate Written<E>(codec: Codec<E>, log: seq<Item<E>>) {
    forall i :: 0 <= i < |log| ==>
      Next(codec, ByRun(log[..i]), log[i]) && Frame(codec, Record(FORMAT_VERSION, log[i])).Some?
  }

  /** Histories are numbered 1..n and belong to their run. */
  lemma {:induction false} Numbered<E>(codec: Codec<E>, log: seq<Item<E>>, run: string)
    requires Written(codec, log)
    ensures run in ByRun(log) ==> ByRun(log)[run] != []
    ensures forall i :: 0 <= i < |Of(ByRun(log), run)| ==>
              Of(ByRun(log), run)[i].eventSeq == i + 1 && Of(ByRun(log), run)[i].runId == run
    decreases |log|
  {
    hide Frame, Lease.CanonicalKey, Written;
    if log != [] {
      var n := |log| - 1;
      LastIsNext(codec, log);
      WrittenPrefix(codec, log, n);
      Numbered(codec, log[..n], run);
      var before, after := Of(ByRun(log[..n]), run), Of(ByRun(log), run);
      assert after == if log[n].runId == run then before + [log[n]] else before;
    }
  }

  lemma LastIsNext<E>(codec: Codec<E>, log: seq<Item<E>>)
    requires Written(codec, log) && log != []
    ensures log[|log| - 1].eventSeq == |Of(ByRun(log[..|log| - 1]), log[|log| - 1].runId)| + 1
  {
  }

  lemma WrittenPrefix<E>(codec: Codec<E>, log: seq<Item<E>>, n: nat)
    requires Written(codec, log) && n <= |log|
    ensures Written(codec, log[..n])
  {
    forall i | 0 <= i < n
      ensures Next(codec, ByRun(log[..n][..i]), log[..n][i]) && Frame(codec, Record(FORMAT_VERSION, log[..n][i])).Some?
    {
      assert log[..n][..i] == log[..i];
    }
  }

  // ---------- the file ----------

  function Frames<E>(codec: Codec<E>, log: seq<Item<E>>): Bytes
    decreases |log|
  {
    if log == [] then []
    else
      var f := Frame(codec, Record(FORMAT_VERSION, log[0]));
      (if f.Some? then f.value else []) + Frames(codec, log[1..])
  }

  lemma {:induction false} FramesAppend<E>(codec: Codec<E>, log: seq<Item<E>>, item: Item<E>)
    requires Frame(codec, Record(FORMAT_VERSION, item)).Some?
    ensures Frames(codec, log + [item]) == Frames(codec, log) + Frame(codec, Record(FORMAT_VERSION, item)).value
    decreases |log|
  {
    hide Frame;
    var f := Frame(codec, Record(FORMAT_VERSION, item)).value;
    if log == [] {
      assert log + [item] == [item] && [item][1..] == [];
      assert Frames(codec, [item]) == f + Frames(codec, []);
    } else {
      assert (log + [item])[0] == log[0] && (log + [item])[1..] == log[1..] + [item];
      FramesAppend(codec, log[1..], item);
    }
  }

  function HeaderBytes<E>(codec: Codec<E>): Bytes {
    var f := Frame(codec, FileHeader);
    MAGIC + (if f.Some? then f.value else [])
  }

  function FileOf<E>(codec: Codec<E>, log: seq<Item<E>>): Bytes {
    HeaderBytes(codec) + Frames(codec, log)
  }

  datatype Loaded<E> = Ok(histories: Histories<E>) | Corrupted

  predicate Acceptable<E>(codec: Codec<E>, h: Histories<E>, v: Value<E>) {
    v.Record? && v.version == FORMAT_VERSION && Next(codec, h, v.item)
  }

  function LoadRecords<E(==)>(codec: Codec<E>, data: Bytes, h: Histories<E>): Loaded<E>
    decreases |data|
  {
    match DecodeFrame(codec, data)
    case End => Ok(h)
    case Corrupt => Corrupted
    case Got(v, rest) => if Acceptable(codec, h, v) then LoadRecords(codec, rest, Add(h, v.item)) else Corrupted
  }

  function Load<E(==)>(codec: Codec<E>, file: Bytes): Loaded<E> {
    if |file| < 4 || file[..4] != MAGIC then Corrupted
    else
      match DecodeFrame(codec, file[4..])
      case End => Corrupted
      case Corrupt => Corrupted
      case Got(v, rest) => if v.FileHeader? then LoadRecords(codec, rest, map[]) else Corrupted
  }

  // ---------- recovery ----------

  lemma LoadOne<E(!new)>(codec: Codec<E>, h: Histories<E>, item: Item<E>, rest: Bytes)
    requires Faithful(codec) && Next(codec, h, item) && Frame(codec, Record(FORMAT_VERSION, item)).Some?
    ensures LoadRecords(codec, Frame(codec, Record(FORMAT_VERSION, item)).value + rest, h) ==
            LoadRecords(codec, rest, Add(h, item))
  {
    hide Frame, DecodeFrame;
    DecodeWhole(codec, Record(FORMAT_VERSION, item), rest);
  }

  ghost predicate StopsAt<E>(codec: Codec<E>, log: seq<Item<E>>, done: nat, k: nat, n: nat, loaded: Loaded<E>) {
    done <= k <= |log| && loaded == Ok(ByRun(log[..k])) && n == |Frames(codec, log[done..k])|
  }

  /** Loading the first `n` bytes of what follows `done` records stops at a frame
      boundary or fails; it never invents, drops or reorders a record. */
  lemma {:induction false} LoadCut<E(!new)>(codec: Codec<E>, log: seq<Item<E>>, done: nat, n: nat)
    requires Faithful(codec) && Written(codec, log) && done <= |log| && n <= |Frames(codec, log[done..])|
    ensures var loaded := LoadRecords(codec, Frames(codec, log[done..])[..n], ByRun(log[..done]));
            loaded == Corrupted || exists k: nat :: StopsAt(codec, log, done, k, n, loaded)
    decreases |log| - done
  {
    hide Frame, DecodeFrame, Faithful, Next, LoadRecords, ByRun, Written;
    var all := Frames(codec, log[done..]);
    if n == 0 {
      assert all[..n] == [];
      LoadNothing(codec, ByRun(log[..done]));
      assert log[done..done] == [];
      assert StopsAt(codec, log, done, done, n, Ok(ByRun(log[..done])));
    } else {
      FirstFrame(codec, log, done);
      var v := Record(FORMAT_VERSION, log[done]);
      var f := Frame(codec, v).value;
      if n < |f| {
        assert all[..n] == f[..n];
        LoadBroken(codec, ByRun(log[..done]), v, n);
      } else {
        var rest := Frames(codec, log[done + 1..])[..n - |f|];
        assert all[..n] == f + rest;
        LoadOne(codec, ByRun(log[..done]), log[done], rest);
        LoadCut(codec, log, done + 1, n - |f|);
        var loaded := LoadRecords(codec, rest, ByRun(log[..done + 1]));
        if loaded != Corrupted {
          var k: nat :| StopsAt(codec, log, done + 1, k, n - |f|, loaded);
          assert log[done..k][0] == log[done] && log[done..k][1..] == log[done + 1..k];
          assert StopsAt(codec, log, done, k, n, loaded);
        }
      }
    }
  }

  lemma FirstFrame<E>(codec: Codec<E>, log: seq<Item<E>>, done: nat)
    requires Written(codec, log) && done < |log|
    ensures Next(codec, ByRun(log[..done]), log[done]) && Frame(codec, Record(FORMAT_VERSION, log[done])).Some?
    ensures Frames(codec, log[done..]) ==
            Frame(codec, Record(FORMAT_VERSION, log[done])).value + Frames(codec, log[done + 1..])
    ensures ByRun(log[..done + 1]) == Add(ByRun(log[..done]), log[done])
  {
    hide Frame, Next, Add;
    assert log[done..][0] == log[done] && log[done..][1..] == log[done + 1..];
    assert log[..done + 1][..done] == log[..done];
  }

  lemma LoadBroken<E(!new)>(codec: Codec<E>, h: Histories<E>, v: Value<E>, n: nat)
    requires Faithful(codec) && Frame(codec, v).Some? && 0 < n < |Frame(codec, v).value|
    ensures LoadRecords(codec, Frame(codec, v).value[..n], h) == Corrupted
  {
    hide Frame, DecodeFrame;
    DecodeCut(codec, v, n);
  }

  lemma LoadNothing<E>(codec: Codec<E>, h: Histories<E>)
    ensures LoadRecords(codec, [], h) == Ok(h)
  {
  }

  lemma {:induction false} LoadAll<E(!new)>(codec: Codec<E>, log: seq<Item<E>>, done: nat)
    requires Faithful(codec) && Written(codec, log) && done <= |log|
    ensures LoadRecords(codec, Frames(codec, log[done..]), ByRun(log[..done])) == Ok(ByRun(log))
    decreases |log| - done
  {
    hide Frame, DecodeFrame, Faithful, Next;
    if done == |log| {
      assert log[..done] == log;
      LoadNothing(codec, ByRun(log));
    } else {
      assert Next(codec, ByRun(log[..done]), log[done]) && Frame(codec, Record(FORMAT_VERSION, log[done])).Some?;
      assert log[done..][0] == log[done] && log[done..][1..] == log[done + 1..];
      LoadOne(codec, ByRun(log[..done]), log[done], Frames(codec, log[done + 1..]));
      assert log[..done + 1][..done] == log[..done];
      LoadAll(codec, log, done + 1);
    }
  }

  lemma HeaderFirst<E(!new)>(codec: Codec<E>, tail: Bytes)
    requires Faithful(codec)
    ensures Load(codec, HeaderBytes(codec) + tail) == LoadRecords(codec, tail, map[])
  {
    hide DecodeFrame, LoadRecords;
    var f := Frame(codec, FileHeader).value;
    var file := HeaderBytes(codec) + tail;
    assert file[..4] == MAGIC && file[4..] == f + tail;
    DecodeWhole(codec, FileHeader, tail);
  }

  lemma HeaderCut<E(!new)>(codec: Codec<E>, n: nat)
    requires Faithful(codec) && n < |HeaderBytes(codec)|
    ensures Load(codec, HeaderBytes(codec)[..n]) == Corrupted
  {
    hide DecodeFrame, LoadRecords;
    var f := Frame(codec, FileHeader).value;
    var cut := HeaderBytes(codec)[..n];
    if 4 < n {
      assert cut[4..] == f[..n - 4];
      DecodeCut(codec, FileHeader, n - 4);
    } else if n == 4 {
      assert cut[4..] == [];
      EndsEmpty(codec);
    }
  }

  lemma EndsEmpty<E>(codec: Codec<E>)
    ensures DecodeFrame(codec, []) == End
  {
  }

  /** Loading a file returns exactly the histories that were appended to it. */
  lemma RecoveryIsExact<E(!new)>(codec: Codec<E>, log: seq<Item<E>>)
    requires Faithful(codec) && Written(codec, log)
    ensures Load(codec, FileOf(codec, log)) == Ok(ByRun(log))
  {
    HeaderFirst(codec, Frames(codec, log));
    assert log[0..] == log && log[..0] == [];
    LoadAll(codec, log, 0);
  }

  /** Loading the first `n` bytes of a journal succeeds exactly when `n` is the length
      of the file after some number of records, and then returns exactly those. */
  lemma TruncationIsDetected<E(!new)>(codec: Codec<E>, log: seq<Item<E>>, n: nat)
    requires Faithful(codec) && Written(codec, log) && n <= |FileOf(codec, log)|
    ensures Load(codec, FileOf(codec, log)[..n]).Ok?
       <==> exists k :: 0 <= k <= |log| && n == |FileOf(codec, log[..k])|
    ensures Load(codec, FileOf(codec, log)[..n]).Ok? ==>
              exists k :: 0 <= k <= |log| && n == |FileOf(codec, log[..k])| &&
                          Load(codec, FileOf(codec, log)[..n]).histories == ByRun(log[..k])
  {
    hide Load, LoadRecords, Faithful, Frame;
    var head := HeaderBytes(codec);
    var file := FileOf(codec, log);
    if n < |head| {
      assert file[..n] == head[..n];
      HeaderCut(codec, n);
    } else {
      var m := n - |head|;
      assert file[..n] == head + Frames(codec, log)[..m];
      HeaderFirst(codec, Frames(codec, log)[..m]);
      assert log[0..] == log && log[..0] == [];
      LoadCut(codec, log, 0, m);
      var loaded := LoadRecords(codec, Frames(codec, log)[..m], map[]);
      if loaded != Corrupted {
        var k: nat :| StopsAt(codec, log, 0, k, m, loaded);
        assert log[0..k] == log[..k];
        assert n == |FileOf(codec, log[..k])|;
      }
      forall k | 0 <= k <= |log| && n == |FileOf(codec, log[..k])|
        ensures Load(codec, file[..n]) == Ok(ByRun(log[..k]))
      {
        WrittenPrefix(codec, log, k);
        FramesPrefix(codec, log, k);
        assert file[..n] == FileOf(codec, log[..k]);
        RecoveryIsExact(codec, log[..k]);
      }
    }
  }

  lemma {:induction false} FramesPrefix<E>(codec: Codec<E>, log: seq<Item<E>>, k: nat)
    requires k <= |log|
    ensures Frames(codec, log[..k]) <= Frames(codec, log)
    decreases k
  {
    hide Frame;
    if 0 < k {
      assert log[..k][0] == log[0] && log[..k][1..] == log[1..][..k - 1];
      FramesPrefix(codec, log[1..], k - 1);
    }
  }

  // ---------- only what was written is loaded ----------

  lemma BigEndianBack(b: Bytes)
    requires |b| == 4
    ensures BigEndian(FromBigEndian(b)) == b
  {
    var n := FromBigEndian(b);
    assert n / 0x100 == b[0] as int * 0x1_0000 + b[1] as int * 0x100 + b[2] as int;
    assert n / 0x1_0000 == b[0] as int * 0x100 + b[1] as int;
    assert n / 0x100_0000 == b[0] as int;
  }

  /** Bytes decode to a value and a rest only if they are that value's frame followed by
      that rest: length, checksum and canonical payload all have to be right. */
  lemma DecodeOnly<E>(codec: Codec<E>, data: Bytes)
    requires DecodeFrame(codec, data).Got?
    ensures var d := DecodeFrame(codec, data);
            Frame(codec, d.value).Some? && data == Frame(codec, d.value).value + d.rest && !d.value.NotAMap?
  {
    hide BigEndian, FromBigEndian;
    var size := FromBigEndian(data[..4]);
    var checksum, payload := data[4..36], data[36..36 + size];
    BigEndianBack(data[..4]);
    assert |payload| == size;
    assert data == data[..4] + checksum + payload + data[36 + size..];
  }

  lemma {:induction false} LoadRecordsOnly<E>(codec: Codec<E>, data: Bytes, log: seq<Item<E>>)
    returns (more: seq<Item<E>>)
    requires Written(codec, log) && LoadRecords(codec, data, ByRun(log)).Ok?
    ensures Written(codec, log + more) && data == Frames(codec, more)
    ensures LoadRecords(codec, data, ByRun(log)) == Ok(ByRun(log + more))
    decreases |data|
  {
    hide DecodeFrame, Frame, Written, Next, ByRun, Frames, LoadRecords;
    LoadRecordsStep(codec, data, ByRun(log));
    match DecodeFrame(codec, data)
    case End =>
      more := [];
      assert log + more == log;
      EndsOnlyEmpty(codec, data);
      NoFrames(codec);
    case Got(v, rest) =>
      DecodeOnly(codec, data);
      WrittenGrows(codec, log, v.item);
      ByRunGrows(log, v.item);
      var tail := LoadRecordsOnly(codec, rest, log + [v.item]);
      more := [v.item] + tail;
      assert log + more == log + [v.item] + tail;
      FirstOfFrames(codec, v.item, tail);
  }

  lemma LoadRecordsStep<E>(codec: Codec<E>, data: Bytes, h: Histories<E>)
    requires LoadRecords(codec, data, h).Ok?
    ensures var d := DecodeFrame(codec, data);
            !d.Corrupt? && (d.End? ==> LoadRecords(codec, data, h) == Ok(h)) &&
            (d.Got? ==>
               d.value == Record(FORMAT_VERSION, d.value.item) && Next(codec, h, d.value.item) &&
               LoadRecords(codec, data, h) == LoadRecords(codec, d.rest, Add(h, d.value.item)))
  {
    hide DecodeFrame, Next;
  }

  lemma NoFrames<E>(codec: Codec<E>)
    ensures Frames(codec, []) == []
  {
  }

  lemma FirstOfFrames<E>(codec: Codec<E>, item: Item<E>, tail: seq<Item<E>>)
    requires Frame(codec, Record(FORMAT_VERSION, item)).Some?
    ensures Frames(codec, [item] + tail) == Frame(codec, Record(FORMAT_VERSION, item)).value + Frames(codec, tail)
  {
    hide Frame;
    assert ([item] + tail)[1..] == tail;
  }

  lemma ByRunGrows<E>(log: seq<Item<E>>, item: Item<E>)
    ensures ByRun(log + [item]) == Add(ByRun(log), item)
  {
    assert (log + [item])[..|log|] == log;
  }

  lemma EndsOnlyEmpty<E>(codec: Codec<E>, data: Bytes)
    requires DecodeFrame(codec, data).End?
    ensures data == []
  {
  }

  lemma WrittenGrows<E>(codec: Codec<E>, log: seq<Item<E>>, item: Item<E>)
    requires Written(codec, log) && Next(codec, ByRun(log), item) && Frame(codec, Record(FORMAT_VERSION, item)).Some?
    ensures Written(codec, log + [item])
  {
    hide Frame, Next;
    var more := log + [item];
    forall i | 0 <= i < |more|
      ensures Next(codec, ByRun(more[..i]), more[i]) && Frame(codec, Record(FORMAT_VERSION, more[i])).Some?
    {
      assert more[..i] == log[..i];
      assert i == |log| ==> log[..i] == log;
    }
  }

  lemma LoadOnly<E>(codec: Codec<E>, file: Bytes) returns (log: seq<Item<E>>)
    requires Load(codec, file).Ok?
    ensures Written(codec, log) && file == FileOf(codec, log) && Load(codec, file) == Ok(ByRun(log))
  {
    hide DecodeFrame, Frame, LoadRecords, Next;
    DecodeOnly(codec, file[4..]);
    var rest := DecodeFrame(codec, file[4..]).rest;
    assert Written(codec, []) && ByRun<E>([]) == map[];
    log := LoadRecordsOnly(codec, rest, []);
    assert [] + log == log;
    assert file == file[..4] + file[4..];
  }

  /** A file loads as certain histories exactly when it is, byte for byte, the file that
      appending some log of these histories writes.  Any other file is refused. */
  lemma LoadExactly<E(!new)>(codec: Codec<E>, file: Bytes, h: Histories<E>)
    requires Faithful(codec)
    ensures Load(codec, file) == Ok(h) <==>
              exists log :: Written(codec, log) && file == FileOf(codec, log) && h == ByRun(log)
  {
    hide Load, Faithful, Written, FileOf;
    if Load(codec, file) == Ok(h) {
      var log := LoadOnly(codec, file);
    }
    if log :| Written(codec, log) && file == FileOf(codec, log) && h == ByRun(log) {
      RecoveryIsExact(codec, log);
    }
  }

  /** What an item of a history must be. */
  predicate Proper<E>(codec: Codec<E>, run: string, i: nat, item: Item<E>) {
    item.runId == run && item.eventSeq == i + 1 && 0 <= item.recordedAtNs && Lease.CanonicalKey(run) &&
    codec.plain(item.event)
  }

  lemma {:induction false} WrittenIsProper<E>(codec: Codec<E>, log: seq<Item<E>>, run: string, i: nat)
    requires Written(codec, log) && i < |Of(ByRun(log), run)|
    ensures Proper(codec, run, i, Of(ByRun(log), run)[i])
    decreases |log|
  {
    hide Frame, Lease.CanonicalKey, Written;
    if log != [] {
      var n := |log| - 1;
      LastIsProper(codec, log);
      WrittenPrefix(codec, log, n);
      var before, after := Of(ByRun(log[..n]), run), Of(ByRun(log), run);
      assert after == if log[n].runId == run then before + [log[n]] else before;
      if i < |before| { WrittenIsProper(codec, log[..n], run, i); }
    }
  }

  lemma LastIsProper<E>(codec: Codec<E>, log: seq<Item<E>>)
    requires Written(codec, log) && log != []
    ensures var item := log[|log| - 1];
            Proper(codec, item.runId, |Of(ByRun(log[..|log| - 1]), item.runId)|, item)
  {
    hide Frame, Lease.CanonicalKey;
  }

  /** Whatever a file loads as, every run in it has a proper id and at least one event, and
      its events are numbered from one on, carry their own run id, a time that is not
      negative, and plain data. */
  lemma LoadedIsProper<E>(codec: Codec<E>, file: Bytes, run: string)
    requires Load(codec, file).Ok? && run in Load(codec, file).histories
    ensures var items := Load(codec, file).histories[run];
            items != [] && forall i :: 0 <= i < |items| ==> Proper(codec, run, i, items[i])
  {
    hide Load, Written, FileOf, ByRun, Proper;
    var log := LoadOnly(codec, file);
    Numbered(codec, log, run);
    var items := ByRun(log)[run];
    forall i | 0 <= i < |items|
      ensures Proper(codec, run, i, items[i])
    {
      WrittenIsProper(codec, log, run, i);
    }
  }
}
