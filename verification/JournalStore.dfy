/** The file-backed journal as a living store: appends, closing, and reopening after
    a restart (remote_robot/journal.py, _JournalBase and FileRunJournal). */
module JournalStore {
  import opened Journal
  import Lease

  /** `log` is the order in which records were persisted; the other fields are the
      store's own. */
  datatype Store<E> = Store(
    events: Histories<E>, recovered: set<string>, closed: bool, file: Bytes, log: seq<Item<E>>)

  datatype AppendOutcome<E> = Appended(item: Item<E>) | BadRunId | BadEvent | JournalClosed | ReadOnly | NotFramed

  function Fresh<E>(codec: Codec<E>): Store<E> {
    Store(map[], {}, false, HeaderBytes(codec), [])
  }

  function NextItem<E>(s: Store<E>, run: string, event: E, nowNs: nat): Item<E> {
    Item(run, |Of(s.events, run)| + 1, nowNs, event)
  }

  function AppendOutcomeOf<E>(codec: Codec<E>, s: Store<E>, run: string, event: E, nowNs: nat): AppendOutcome<E> {
    if !Lease.CanonicalKey(run) then BadRunId
    else if !codec.plain(event) then BadEvent
    else if s.closed then JournalClosed
    else if run in s.recovered then ReadOnly
    else if Frame(codec, Record(FORMAT_VERSION, NextItem(s, run, event, nowNs))).None? then NotFramed
    else Appended(NextItem(s, run, event, nowNs))
  }

  /** An append that fails while persisting still leaves an empty entry for its run,
      because the entry is created before the record is framed. */
  function AppendStep<E>(codec: Codec<E>, s: Store<E>, run: string, event: E, nowNs: nat): Store<E> {
    var outcome := AppendOutcomeOf(codec, s, run, event, nowNs);
    if outcome.Appended? then
      s.(events := Add(s.events, outcome.item),
         file := s.file + Frame(codec, Record(FORMAT_VERSION, outcome.item)).value,
         log := s.log + [outcome.item])
    else if outcome.NotFramed? then s.(events := s.events[run := Of(s.events, run)])
    else s
  }

  /** A new server process opening the same file; unreadable files stay closed. */
  function ReopenStep<E(==)>(codec: Codec<E>, s: Store<E>): Store<E> {
    match Load(codec, s.file)
    case Ok(histories) => s.(events := histories, recovered := histories.Keys, closed := false)
    case Corrupted => s.(closed := true)
  }

  datatype Call<E> = DoAppend(run: string, event: E, nowNs: nat) | DoClose | DoReopen

  function Apply<E(==)>(codec: Codec<E>, s: Store<E>, c: Call<E>): Store<E> {
    match c
    case DoAppend(run, event, nowNs) => AppendStep(codec, s, run, event, nowNs)
    case DoClose => s.(closed := true)
    case DoReopen => ReopenStep(codec, s)
  }

  function ApplyAll<E(==)>(codec: Codec<E>, s: Store<E>, calls: seq<Call<E>>): Store<E>
    decreases |calls|
  {
    if calls == [] then s else ApplyAll(codec, Apply(codec, s, calls[0]), calls[1..])
  }

  // ---------- the invariant ----------

  ghost predicate SameHistories<E>(events: Histories<E>, h: Histories<E>) {
    h.Keys <= events.Keys && forall r :: Of(events, r) == Of(h, r)
  }

  ghost predicate Inv<E>(codec: Codec<E>, s: Store<E>) {
    Written(codec, s.log) && s.file == FileOf(codec, s.log) && SameHistories(s.events, ByRun(s.log)) &&
    s.recovered <= ByRun(s.log).Keys
  }

  lemma WrittenAppend<E>(codec: Codec<E>, log: seq<Item<E>>, item: Item<E>)
    requires Written(codec, log) && Next(codec, ByRun(log), item) && Frame(codec, Record(FORMAT_VERSION, item)).Some?
    ensures Written(codec, log + [item]) && ByRun(log + [item]) == Add(ByRun(log), item)
  {
    hide Frame, Next;
    var longer := log + [item];
    assert longer[..|log|] == log;
    forall i | 0 <= i < |longer|
      ensures Next(codec, ByRun(longer[..i]), longer[i]) && Frame(codec, Record(FORMAT_VERSION, longer[i])).Some?
    {
      if i < |log| { assert longer[..i] == log[..i] && longer[i] == log[i]; }
    }
  }

  lemma AppendKeeps<E>(codec: Codec<E>, s: Store<E>, run: string, event: E, nowNs: nat)
    requires Inv(codec, s)
    ensures Inv(codec, AppendStep(codec, s, run, event, nowNs))
  {
    hide Frame, Written, Lease.CanonicalKey, SameHistories, Frames, HeaderBytes, ByRun, Of;
    var outcome := AppendOutcomeOf(codec, s, run, event, nowNs);
    SameOf(s.events, ByRun(s.log), run);
    if outcome.Appended? {
      WrittenAppend(codec, s.log, outcome.item);
      FramesAppend(codec, s.log, outcome.item);
      AddSame(s.events, ByRun(s.log), outcome.item);
      var f := Frame(codec, Record(FORMAT_VERSION, outcome.item)).value;
      assert (HeaderBytes(codec) + Frames(codec, s.log)) + f == HeaderBytes(codec) + (Frames(codec, s.log) + f);
    }
  }

  lemma SameOf<E>(events: Histories<E>, h: Histories<E>, run: string)
    requires SameHistories(events, h)
    ensures Of(events, run) == Of(h, run)
    ensures SameHistories(events[run := Of(events, run)], h)
  {
    assert forall r :: Of(events[run := Of(events, run)], r) == Of(events, r);
  }

  lemma AddSame<E>(events: Histories<E>, h: Histories<E>, item: Item<E>)
    requires SameHistories(events, h)
    ensures SameHistories(Add(events, item), Add(h, item))
  {
    forall r
      ensures Of(Add(events, item), r) == Of(Add(h, item), r)
    {
      assert Of(events, r) == Of(h, r);
    }
  }

  lemma ApplyKeeps<E(!new)>(codec: Codec<E>, s: Store<E>, c: Call<E>)
    requires Faithful(codec) && Inv(codec, s)
    ensures Inv(codec, Apply(codec, s, c))
  {
    hide Frame, Written, Faithful, AppendStep, Load;
    match c
    case DoAppend(run, event, nowNs) => AppendKeeps(codec, s, run, event, nowNs);
    case DoClose =>
    case DoReopen => RecoveryIsExact(codec, s.log);
  }

  lemma {:induction false} ApplyAllKeeps<E(!new)>(codec: Codec<E>, s: Store<E>, calls: seq<Call<E>>)
    requires Faithful(codec) && Inv(codec, s)
    ensures Inv(codec, ApplyAll(codec, s, calls))
    decreases |calls|
  {
    hide Faithful, Inv, Apply;
    if calls != [] {
      ApplyKeeps(codec, s, calls[0]);
      ApplyAllKeeps(codec, Apply(codec, s, calls[0]), calls[1..]);
    }
  }

  lemma FreshIsGood<E>(codec: Codec<E>)
    ensures Inv(codec, Fresh(codec))
  {
    assert HeaderBytes(codec) + Frames(codec, []) == HeaderBytes(codec);
  }

  // ---------- guarantees ----------

  /** After any calls, a restart reads back exactly the histories in memory; the two
      maps differ only in runs that have no event at all. */
  lemma FileIsMemory<E(!new)>(codec: Codec<E>, calls: seq<Call<E>>)
    requires Faithful(codec)
    ensures var s := ApplyAll(codec, Fresh(codec), calls);
            Load(codec, s.file).Ok? &&
            (forall r :: Of(Load(codec, s.file).histories, r) == Of(s.events, r)) &&
            (Load(codec, s.file).histories == s.events <==> forall r :: r in s.events ==> s.events[r] != [])
  {
    hide Faithful, ApplyAll, Load;
    var s := ApplyAll(codec, Fresh(codec), calls);
    FreshIsGood(codec);
    ApplyAllKeeps(codec, Fresh(codec), calls);
    RecoveryIsExact(codec, s.log);
    ReadsBack(codec, s);
  }

  lemma ReadsBack<E>(codec: Codec<E>, s: Store<E>)
    requires Inv(codec, s)
    ensures ByRun(s.log) == s.events <==> forall r :: r in s.events ==> s.events[r] != []
  {
    hide Written, FileOf;
    var h := ByRun(s.log);
    forall r | r in h
      ensures h[r] != []
    {
      Numbered(codec, s.log, r);
    }
    if forall r :: r in s.events ==> s.events[r] != [] {
      assert forall r :: r in s.events ==> Of(h, r) != [];
      assert h.Keys == s.events.Keys;
      assert forall r :: r in h ==> h[r] == Of(h, r) == s.events[r];
    }
  }

  /** An append succeeds exactly for a proper id, plain data, an open journal, a run that
      was not recovered, and a record that fits a frame; it then adds one event, numbered
      next and stamped with the given time, to that run alone and its frame to the file,
      and otherwise it adds nothing. */
  lemma AppendExactly<E(!new)>(codec: Codec<E>, s: Store<E>, run: string, event: E, nowNs: nat, other: string)
    ensures var item := Item(run, |Of(s.events, run)| + 1, nowNs, event);
            var s' := AppendStep(codec, s, run, event, nowNs);
            var good := Lease.CanonicalKey(run) && codec.plain(event) && !s.closed && run !in s.recovered &&
                        Frame(codec, Record(FORMAT_VERSION, item)).Some?;
            (AppendOutcomeOf(codec, s, run, event, nowNs) == Appended(item) <==> good) &&
            Of(s'.events, other) == Of(s.events, other) + (if good && other == run then [item] else []) &&
            s'.file == s.file + (if good then Frame(codec, Record(FORMAT_VERSION, item)).value else []) &&
            s'.closed == s.closed && s'.recovered == s.recovered
  {
    hide Frame, Lease.CanonicalKey;
  }

  /** A restart leaves the file alone and makes exactly its runs read-only. */
  lemma ReopenExactly<E(!new)>(codec: Codec<E>, s: Store<E>)
    requires Faithful(codec) && Inv(codec, s)
    ensures var s' := ReopenStep(codec, s);
            s'.file == s.file && !s'.closed && s'.events == ByRun(s.log) && s'.recovered == ByRun(s.log).Keys
  {
    hide Frame, Written, Faithful, Load;
    RecoveryIsExact(codec, s.log);
  }

  predicate EmptyEntry<E>(s: Store<E>, run: string) {
    run in s.events && s.events[run] == []
  }

  /** A call creates an entry without events exactly when it is an append to an open
      journal, under a proper id with no entry yet, of plain data that cannot be framed:
      too large, or refused by the encoder. */
  lemma EmptyEntryExactly<E(!new)>(codec: Codec<E>, s: Store<E>, c: Call<E>, run: string)
    requires Faithful(codec) && Inv(codec, s) && !EmptyEntry(s, run)
    ensures EmptyEntry(Apply(codec, s, c), run) <==>
              c.DoAppend? && c.run == run && Lease.CanonicalKey(run) && codec.plain(c.event) && !s.closed &&
              run !in s.recovered && run !in s.events &&
              Frame(codec, Record(FORMAT_VERSION, Item(run, 1, c.nowNs, c.event))).None?
  {
    hide Frame, Written, Faithful, Load, Lease.CanonicalKey;
    if c.DoReopen? {
      RecoveryIsExact(codec, s.log);
      Numbered(codec, s.log, run);
    }
  }

  /** The empty entry is really reachable: a first event too large to frame. */
  lemma OversizedEventLeavesEmptyEntry<E>(codec: Codec<E>, run: string, event: E, nowNs: nat)
    requires Lease.CanonicalKey(run) && codec.plain(event)
    requires |codec.encode(Record(FORMAT_VERSION, Item(run, 1, nowNs, event)))| > MAX_FRAME_BYTES
    ensures AppendStep(codec, Fresh(codec), run, event, nowNs).events == map[run := []]
    ensures AppendStep(codec, Fresh(codec), run, event, nowNs).file == Fresh(codec).file
  {
  }

  lemma StepExtends<E(!new)>(codec: Codec<E>, s: Store<E>, c: Call<E>, run: string)
    requires Faithful(codec) && Inv(codec, s)
    ensures var s' := Apply(codec, s, c);
            Of(s.events, run) <= Of(s'.events, run) &&
            (run in s.recovered ==> run in s'.recovered && Of(s'.events, run) == Of(s.events, run))
  {
    hide Frame, Written, Faithful, Load, Lease.CanonicalKey;
    RecoveryIsExact(codec, s.log);
  }

  /** Over any number of appends, restarts and closings, a run's events are only ever
      extended; once recovered from a file they never change again. */
  lemma {:induction false} RecoveredRunsAreFrozen<E(!new)>(codec: Codec<E>, s: Store<E>, calls: seq<Call<E>>,
                                                           run: string)
    requires Faithful(codec) && Inv(codec, s)
    ensures var s' := ApplyAll(codec, s, calls);
            Of(s.events, run) <= Of(s'.events, run) &&
            (run in s.recovered ==> run in s'.recovered && Of(s'.events, run) == Of(s.events, run))
    decreases |calls|
  {
    hide Faithful, Inv, Apply;
    if calls != [] {
      StepExtends(codec, s, calls[0], run);
      ApplyKeeps(codec, s, calls[0]);
      RecoveredRunsAreFrozen(codec, Apply(codec, s, calls[0]), calls[1..], run);
    }
  }

  /** After a restart every run with a history is read-only. */
  lemma RestartNeverResumes<E(!new)>(codec: Codec<E>, s: Store<E>, run: string, event: E, nowNs: nat)
    requires Faithful(codec) && Inv(codec, s) && Of(s.events, run) != []
    ensures !AppendOutcomeOf(codec, ReopenStep(codec, s), run, event, nowNs).Appended?
  {
    hide Frame, Written, Faithful, Load;
    RecoveryIsExact(codec, s.log);
  }

  function Replay<E>(items: seq<Item<E>>, after: nat): seq<Item<E>> {
    if items == [] then []
    else (if items[0].eventSeq > after then [items[0]] else []) + Replay(items[1..], after)
  }

  /** Replaying after sequence number `after` yields precisely the later events. */
  lemma ReplayIsSuffix<E>(codec: Codec<E>, s: Store<E>, run: string, after: nat)
    requires Inv(codec, s)
    ensures var items := Of(s.events, run);
            Replay(items, after) == if after <= |items| then items[after..] else []
  {
    hide Written, FileOf, ByRun;
    Numbered(codec, s.log, run);
    ReplayFrom(Of(s.events, run), after, 0);
  }

  lemma {:induction false} ReplayFrom<E>(items: seq<Item<E>>, after: nat, base: nat)
    requires forall k :: 0 <= k < |items| ==> items[k].eventSeq == base + k + 1
    ensures Replay(items, after) ==
            if after <= base then items else if after - base <= |items| then items[after - base..] else []
    decreases |items|
  {
    if items != [] {
      var tail := items[1..];
      ReplayFrom(tail, after, base + 1);
      if after <= base {
        assert items == [items[0]] + tail;
      } else if after - base <= |items| {
        assert tail[after - base - 1..] == items[after - base..];
      }
    }
  }

  // ---------- the objects ----------

  /** `_load`: the reading loop with its own table of expected sequence numbers. */
  method LoadFile<E(==)>(codec: Codec<E>, file: Bytes) returns (loaded: Loaded<E>)
    ensures loaded == Load(codec, file)
  {
    if |file| < 4 || file[..4] != MAGIC { return Corrupted; }
    var header := DecodeFrame(codec, file[4..]);
    if !header.Got? || !header.value.FileHeader? { return Corrupted; }
    var data := header.rest;
    var events: Histories<E> := map[];
    var expected: map<string, int> := map[];
    while true
      invariant LoadRecords(codec, data, events) == Load(codec, file)
      invariant expected.Keys == events.Keys && forall r :: r in events ==> expected[r] == |events[r]|
      decreases |data|
    {
      var frame := DecodeFrame(codec, data);
      if frame.End? { return Ok(events); }
      if frame.Corrupt? || !frame.value.Record? || frame.value.version != FORMAT_VERSION { return Corrupted; }
      var item := frame.value.item;
      if !Lease.CanonicalKey(item.runId) { return Corrupted; }
      var sequence := (if item.runId in expected then expected[item.runId] else 0) + 1;
      if item.eventSeq != sequence || item.recordedAtNs < 0 || !codec.plain(item.event) { return Corrupted; }
      expected := expected[item.runId := sequence];
      events := Add(events, item);
      data := frame.rest;
    }
  }

  class FileRunJournal<E(==)> {
    const codec: Codec<E>
    var events: Histories<E>
    var recovered: set<string>
    var closed: bool
    var file: Bytes
    ghost var log: seq<Item<E>>

    ghost function View(): Store<E>
      reads this
    {
      Store(events, recovered, closed, file, log)
    }

    constructor Create(codec: Codec<E>)
      ensures this.codec == codec && View() == Fresh(codec) && Inv(codec, View())
    {
      this.codec := codec;
      events, recovered, closed, file, log := map[], {}, false, HeaderBytes(codec), [];
      new;
      FreshIsGood(codec);
    }

    method Append(run: string, event: E, nowNs: nat) returns (outcome: AppendOutcome<E>)
      requires Inv(codec, View())
      modifies this
      ensures Inv(codec, View())
      ensures outcome == AppendOutcomeOf(codec, old(View()), run, event, nowNs)
      ensures View() == AppendStep(codec, old(View()), run, event, nowNs)
    {
      hide Inv, Frame;
      AppendKeeps(codec, View(), run, event, nowNs);
      if !Lease.CanonicalKey(run) { return BadRunId; }
      if !codec.plain(event) { return BadEvent; }
      if closed { return JournalClosed; }
      if run in recovered { return ReadOnly; }
      if run !in events { events := events[run := []]; }
      var item := Item(run, |events[run]| + 1, nowNs, event);
      var frame := Frame(codec, Record(FORMAT_VERSION, item));
      if frame.None? {
        assert events == old(events)[run := Of(old(events), run)];
        return NotFramed;
      }
      file := file + frame.value;
      events := events[run := events[run] + [item]];
      log := log + [item];
      assert events == Add(old(events), item);
      return Appended(item);
    }

    method ReplayAfter(run: string, after: nat) returns (items: seq<Item<E>>)
      requires Inv(codec, View())
      ensures items == if after <= |Of(events, run)| then Of(events, run)[after..] else []
    {
      ReplayIsSuffix(codec, View(), run, after);
      items := Replay(Of(events, run), after);
    }

    method Close()
      requires Inv(codec, View())
      modifies this
      ensures Inv(codec, View()) && View() == old(View()).(closed := true)
    {
      closed := true;
    }
  }

  /** Why an append is refused, in this order: the run id, the event, a closed journal, a run
      from before the last restart, a record that fits no frame. */
  lemma AppendRefused<E>(codec: Codec<E>, s: Store<E>, run: string, event: E, nowNs: nat)
    ensures var outcome := AppendOutcomeOf(codec, s, run, event, nowNs);
            var proper := Lease.CanonicalKey(run) && codec.plain(event);
            (outcome.BadRunId? <==> !Lease.CanonicalKey(run)) &&
            (outcome.BadEvent? <==> Lease.CanonicalKey(run) && !codec.plain(event)) &&
            (outcome.JournalClosed? <==> proper && s.closed) &&
            (outcome.ReadOnly? <==> proper && !s.closed && run in s.recovered) &&
            (outcome.NotFramed? <==>
               proper && !s.closed && run !in s.recovered &&
               Frame(codec, Record(FORMAT_VERSION, Item(run, |Of(s.events, run)| + 1, nowNs, event))).None?)
  {
    hide Frame, Lease.CanonicalKey;
  }
}
