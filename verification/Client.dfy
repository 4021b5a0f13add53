/** The streaming client (robot_client.py) driving a v1 run over a connection.

    Requests and replies are in flight for as long as they like; replies may even
    overtake each other.  Between any two client actions the server's executor may take
    any number of steps. */
module Client {
  import opened Wrappers
  import opened Protocol
  import opened RunModel
  import opened RunSafety
  import opened RunGuarantees

  /** A program cut into chunks, and how far ahead of the cursor the client may send. */
  datatype Plan = Plan(chunks: seq<seq<Point>>, targetAheadUs: int)

  datatype Phase = Prebuffering(reached: bool) | Streaming | Aborted

  datatype Client = Client(next: nat, cursorUs: int, waiting: bool, phase: Phase)

  /** `early` marks a chunk sent before the start request. */
  datatype Request = ChunkRequest(k: nat, early: bool) | StartRequest

  datatype Reply = Ack(k: int, untilUs: int, cursorUs: int) | Refusal(code: Code) | Report(cursorUs: int)

  datatype System = System(run: Run, client: Client, toServer: seq<Request>, toClient: seq<Reply>)

  datatype Event =
    | SendNext
    | SendStart
    | Receive(i: nat)
    | GiveUp
    | ServerTakes
    | ServerReports
    | ServerRuns(action: Action)

  // ---------- the client ----------

  function PrebufferUs(plan: Plan): int
    requires plan.chunks != []
  {
    var end := EndUs(plan.chunks[|plan.chunks| - 1]);
    if plan.targetAheadUs < end then plan.targetAheadUs else end
  }

  function Final(plan: Plan, k: int): bool {
    k == |plan.chunks| - 1
  }

  /** The next chunk goes out while prebuffering, or when it ends near enough. */
  function SendNextStep(plan: Plan, s: System): System {
    var cl := s.client;
    if cl.waiting || cl.next >= |plan.chunks| then s
    else if cl.phase == Prebuffering(false) then
      s.(client := cl.(waiting := true), toServer := s.toServer + [ChunkRequest(cl.next, true)])
    else if cl.phase.Streaming? && EndUs(plan.chunks[cl.next]) - cl.cursorUs <= plan.targetAheadUs then
      s.(client := cl.(waiting := true), toServer := s.toServer + [ChunkRequest(cl.next, false)])
    else s
  }

  function SendStartStep(plan: Plan, s: System): System {
    var cl := s.client;
    if cl.phase.Prebuffering? && !cl.waiting && (cl.phase.reached || cl.next >= |plan.chunks|)
    then s.(client := cl.(phase := Phase.Streaming), toServer := s.toServer + [StartRequest])
    else s
  }

  function Hear(plan: Plan, cl: Client, reply: Reply): Client
    requires plan.chunks != []
  {
    match reply
    case Report(cursorUs) => cl.(cursorUs := cursorUs)
    case Refusal(_) => if cl.waiting then cl.(phase := Aborted) else cl
    case Ack(k, untilUs, cursorUs) =>
      if !cl.waiting || k != cl.next then cl.(cursorUs := cursorUs)
      else
        var phase := if cl.phase.Prebuffering? then Prebuffering(untilUs >= PrebufferUs(plan)) else cl.phase;
        cl.(cursorUs := cursorUs, waiting := false, next := cl.next + 1, phase := phase)
  }

  function ReceiveStep(plan: Plan, s: System, i: nat): System
    requires plan.chunks != []
  {
    if i < |s.toClient|
    then s.(client := Hear(plan, s.client, s.toClient[i]), toClient := s.toClient[..i] + s.toClient[i + 1..])
    else s
  }

  // ---------- the server's end of the connection ----------

  function ChunkOutcome(c: Config, plan: Plan, r: Run, k: nat): Outcome<Receipt>
    requires k < |plan.chunks|
  {
    var chunk, final := plan.chunks[k], Final(plan, k);
    AppendOutcome(c, r, k, chunk, final, c.digests.chunk(k, chunk, final))
  }

  function TakeChunk(c: Config, plan: Plan, r: Run, k: nat): Run
    requires k < |plan.chunks|
  {
    var chunk, final := plan.chunks[k], Final(plan, k);
    AppendStep(c, r, k, chunk, final, c.digests.chunk(k, chunk, final))
  }

  function ChunkReply(c: Config, plan: Plan, r: Run, k: nat): Reply
    requires k < |plan.chunks|
  {
    match ChunkOutcome(c, plan, r, k)
    case Rejected(code) => Refusal(code)
    case Accepted(receipt) => Ack(receipt.chunkSeq, receipt.acceptedUntilUs, receipt.executionCursorUs)
  }

  function TakeStep(c: Config, plan: Plan, s: System): System {
    if s.toServer == [] then s else
    match s.toServer[0]
    case ChunkRequest(k, _) =>
      if k >= |plan.chunks| then s
      else s.(run := TakeChunk(c, plan, s.run, k), toServer := s.toServer[1..],
              toClient := s.toClient + [ChunkReply(c, plan, s.run, k)])
    case StartRequest =>
      var v := StartVerdict(c, s.run);
      s.(run := StartStep(c, s.run), toServer := s.toServer[1..],
         toClient := s.toClient + [if v.Fail? then Refusal(v.code) else Report(s.run.cursorUs)])
  }

  function Next(c: Config, plan: Plan, s: System, e: Event): System
    requires plan.chunks != []
  {
    match e
    case SendNext => SendNextStep(plan, s)
    case SendStart => SendStartStep(plan, s)
    case Receive(i) => ReceiveStep(plan, s, i)
    case GiveUp => s.(client := s.client.(phase := Aborted))
    case ServerTakes => TakeStep(c, plan, s)
    case ServerReports => s.(toClient := s.toClient + [Report(s.run.cursorUs)])
    case ServerRuns(action) => if action.Append? || action.Start? then s else s.(run := Step(c, s.run, action))
  }

  function History(c: Config, plan: Plan, s: System, events: seq<Event>): System
    requires plan.chunks != []
    decreases |events|
  {
    if events == [] then s else History(c, plan, Next(c, plan, s, events[0]), events[1..])
  }

  function Opened(nowUs: int): System {
    System(Initial(nowUs), Client(0, 0, false, Prebuffering(false)), [], [])
  }

  // ---------- what the command line and the policy guarantee ----------

  predicate Increasing(points: seq<Point>) {
    forall i, k :: 0 <= i < k < |points| ==> points[i].tUs < points[k].tUs
  }

  /** A validated program in non-empty chunks, a target between the start buffer and the
      horizon (2 s <= target <= 25 s < 30 s as shipped). */
  ghost predicate GoodPlan(c: Config, plan: Plan) {
    c.runMode.Streaming? && plan.chunks != [] && (forall k :: 0 <= k < |plan.chunks| ==> plan.chunks[k] != []) &&
    Increasing(Flatten(plan.chunks)) &&
    0 < plan.targetAheadUs && c.policy.startBufferUs <= plan.targetAheadUs <= c.policy.maxHorizonUs
  }

  lemma {:induction false} ChunkIsPart(chunks: seq<seq<Point>>, k: nat) returns (i: nat)
    requires k < |chunks| && chunks[k] != []
    ensures i < |Flatten(chunks)| && Flatten(chunks)[i].tUs == EndUs(chunks[k])
    decreases |chunks|
  {
    if k == 0 {
      i := |chunks[0]| - 1;
    } else {
      i := ChunkIsPart(chunks[1..], k - 1);
      i := i + |chunks[0]|;
    }
  }

  lemma {:induction false} EndsIncrease(chunks: seq<seq<Point>>, i: nat, k: nat)
    requires (forall n :: 0 <= n < |chunks| ==> chunks[n] != []) && Increasing(Flatten(chunks)) && i < k < |chunks|
    ensures EndUs(chunks[i]) < EndUs(chunks[k])
    decreases |chunks|
  {
    var rest, n := chunks[1..], |chunks[0]|;
    if i == 0 {
      var at := ChunkIsPart(rest, k - 1);
      assert Flatten(chunks)[n - 1] == chunks[0][n - 1] && Flatten(chunks)[n + at] == Flatten(rest)[at];
    } else {
      assert forall j :: 0 <= j < |Flatten(rest)| ==> Flatten(chunks)[n + j] == Flatten(rest)[j];
      EndsIncrease(rest, i - 1, k - 1);
    }
  }

  /** Every program the client has validated, cut by `split_chunks` and paced within the
      command line's limits, is such a plan for a server with the shipped buffer sizes. */
  lemma SplitPlanIsGood(c: Config, clientPolicy: Policy, program: seq<Point>, size: Positive, targetAheadUs: int)
    requires c.runMode.Streaming? && ProgramOk(clientPolicy, c.header, program, true)
    requires 2000000 <= targetAheadUs <= 25000000 && c.policy.startBufferUs <= 2000000 &&
             25000000 <= c.policy.maxHorizonUs
    ensures GoodPlan(c, Plan(SplitChunks(program, size), targetAheadUs))
  {
    hide SplitChunks, SegmentsOk;
    SplitIsPartition(program, size);
    forall i, k | 0 <= i < k < |program|
      ensures program[i].tUs < program[k].tUs
    {
      TimesIncrease(clientPolicy, program, i, k);
    }
  }

  // ---------- the invariant ----------

  /** Nothing has moved before the run is running. */
  predicate Still(r: Run) {
    r.state.Buffering? || r.state.Arming? ==> r.cursorUs == 0
  }

  /** The server holds the first chunks of the plan, and knows how far each reaches. */
  ghost predicate Loaded(plan: Plan, r: Run) {
    r.expectedSeq <= |plan.chunks| && (r.finalReceived <==> r.expectedSeq == |plan.chunks|) &&
    forall k :: k in r.receipts ==>
      0 <= k < |plan.chunks| && r.receipts[k].1.chunkSeq == k &&
      r.receipts[k].1.acceptedUntilUs == EndUs(plan.chunks[k]) && r.receipts[k].1.executionCursorUs <= r.cursorUs
  }

  ghost predicate RunInv(c: Config, plan: Plan, r: Run) {
    Inv(c, r) && Still(r) && Loaded(plan, r)
  }

  predicate ReplyOk(plan: Plan, r: Run, reply: Reply) {
    match reply
    case Report(cursorUs) => cursorUs <= r.cursorUs
    case Refusal(_) => true
    case Ack(k, untilUs, cursorUs) =>
      cursorUs <= r.cursorUs && 0 <= k < r.expectedSeq && k < |plan.chunks| && untilUs == EndUs(plan.chunks[k])
  }

  /** Whatever the client has yet to send lies beyond the target. */
  predicate Far(plan: Plan, n: nat) {
    n <= |plan.chunks| && (n == |plan.chunks| || (0 < n && plan.targetAheadUs <= EndUs(plan.chunks[n - 1])))
  }

  predicate Ready(plan: Plan, r: Run) {
    r.finalReceived || plan.targetAheadUs <= EndUs(r.points)
  }

  predicate RequestOk(plan: Plan, r: Run, request: Request) {
    match request
    case StartRequest => Ready(plan, r)
    case ChunkRequest(k, early) =>
      k < |plan.chunks| && (!early ==> 0 < r.cursorUs && EndUs(plan.chunks[k]) - r.cursorUs <= plan.targetAheadUs)
  }

  predicate ClientOk(plan: Plan, r: Run, cl: Client) {
    cl.cursorUs <= r.cursorUs && cl.next <= r.expectedSeq &&
    (cl.phase == Prebuffering(true) || cl.phase.Streaming? ==> Far(plan, cl.next))
  }

  ghost predicate SystemInv(c: Config, plan: Plan, s: System) {
    RunInv(c, plan, s.run) && ClientOk(plan, s.run, s.client) &&
    (forall i :: 0 <= i < |s.toServer| ==> RequestOk(plan, s.run, s.toServer[i])) &&
    (forall i :: 0 <= i < |s.toClient| ==> ReplyOk(plan, s.run, s.toClient[i]))
  }

  // ---------- the run's steps ----------

  /** What the connection relies on: the run only moves forward. */
  ghost predicate Forward(r: Run, r': Run) {
    r.cursorUs <= r'.cursorUs && r.expectedSeq <= r'.expectedSeq && (r.finalReceived ==> r'.finalReceived) &&
    EndUs(r.points) <= EndUs(r'.points)
  }

  lemma ForwardKeeps(c: Config, plan: Plan, s: System, r': Run)
    requires SystemInv(c, plan, s) && RunInv(c, plan, r') && Forward(s.run, r')
    ensures SystemInv(c, plan, s.(run := r'))
  {
    hide RunInv, Forward, Far;
    var s' := s.(run := r');
    UseForward(s.run, r');
    assert forall i :: 0 <= i < |s'.toServer| ==> RequestOk(plan, s.run, s'.toServer[i]);
    assert forall i :: 0 <= i < |s'.toClient| ==> ReplyOk(plan, s.run, s'.toClient[i]);
  }

  lemma UseForward(r: Run, r': Run)
    requires Forward(r, r')
    ensures r.cursorUs <= r'.cursorUs && r.expectedSeq <= r'.expectedSeq && (r.finalReceived ==> r'.finalReceived)
    ensures EndUs(r.points) <= EndUs(r'.points)
  {
  }

  /** Only a tick's commit moves the cursor, and only in a running state. */
  lemma StillKeeps(c: Config, r: Run, a: Action)
    requires Inv(c, r) && Still(r) && !a.Append?
    ensures Still(Step(c, r, a))
  {
    hide Inv, SendStep, StartStep, CheckStep, AppendStep, HeartbeatLapsed, CommitStep, FinishStep, MidTick;
    match a
    case Check => CheckKeepsState(c, r);
    case Start => StartFromBuffering(c, r);
    case Commit(overrun) => CommitRuns(c, r, overrun);
    case Finish => FinishEnds(c, r);
    case _ =>
  }

  lemma CommitRuns(c: Config, r: Run, overrun: bool)
    requires Inv(c, r)
    ensures CommitStep(r, overrun) == r || (r.state.Running? && CommitStep(r, overrun).state.Running?)
  {
    hide BufferInv, ReceiptInv, CursorInv, TorqueInv, TickInv, CompletionInv, SentInv;
  }

  lemma FinishEnds(c: Config, r: Run)
    requires Inv(c, r)
    ensures FinishStep(r) == r || FinishStep(r).state.Terminal()
  {
    hide BufferInv, ReceiptInv, CursorInv, TorqueInv, TickInv, CompletionInv, SentInv;
  }

  lemma StartFromBuffering(c: Config, r: Run)
    ensures StartStep(c, r) == r || (r.state.Buffering? && StartStep(c, r).cursorUs == r.cursorUs)
  {
  }

  lemma CheckKeepsState(c: Config, r: Run)
    ensures CheckStep(c, r).state == r.state && CheckStep(c, r).cursorUs == r.cursorUs
  {
    hide StartPoseOk, AllResolvedOk;
  }

  lemma OtherSteps(c: Config, r: Run, a: Action)
    requires !a.Append?
    ensures var r' := Step(c, r, a);
            r'.points == r.points && r'.receipts == r.receipts && r'.expectedSeq == r.expectedSeq &&
            r'.finalReceived == r.finalReceived
  {
    hide StartStep, HeartbeatStep, StopStep, ConnectionLostStep, OpenStep, CheckStep, GateStep, EnableStep,
         EnterRunningStep, BeginTickStep, CheckHeartbeatStep, TakeSnapshotStep, CloseStep, FinishStep, SendStep,
         MidTick, AppendStep, CommitStep;
    if a.Commit? { CommitFrame(r, a.overrun); }
  }

  lemma CommitFrame(r: Run, overrun: bool)
    ensures var r' := CommitStep(r, overrun);
            r'.points == r.points && r'.receipts == r.receipts && r'.expectedSeq == r.expectedSeq &&
            r'.finalReceived == r.finalReceived
  {
  }

  lemma StepForward(c: Config, plan: Plan, r: Run, a: Action)
    requires RunInv(c, plan, r) && !a.Append?
    ensures RunInv(c, plan, Step(c, r, a)) && Forward(r, Step(c, r, a))
  {
    hide Inv, Still, Step;
    StepKeeps(c, r, a);
    StepOnlyGrows(c, r, a);
    StillKeeps(c, r, a);
    OtherSteps(c, r, a);
  }

  /** A chunk leaves the run as it is, or is the expected one and is added with a receipt. */
  ghost predicate Taken(plan: Plan, r: Run, r': Run, k: nat)
    requires k < |plan.chunks|
  {
    k == r.expectedSeq && !r.finalReceived && r'.expectedSeq == k + 1 && r'.finalReceived == Final(plan, k) &&
    r'.cursorUs == r.cursorUs && r'.state == r.state && r'.receipts.Keys == r.receipts.Keys + {k} &&
    (forall i :: i in r.receipts && i != k ==> r'.receipts[i] == r.receipts[i]) &&
    r'.receipts[k].1.chunkSeq == k && r'.receipts[k].1.acceptedUntilUs == EndUs(plan.chunks[k]) &&
    r'.receipts[k].1.executionCursorUs == r.cursorUs
  }

  lemma ChunkEffect(c: Config, plan: Plan, r: Run, k: nat)
    requires k < |plan.chunks|
    ensures var r' := TakeChunk(c, plan, r, k);
            (r' == r || Taken(plan, r, r', k)) &&
            (ChunkReply(c, plan, r, k).Refusal? ||
             (k in r'.receipts && var receipt := r'.receipts[k].1;
              ChunkReply(c, plan, r, k) == Ack(receipt.chunkSeq, receipt.acceptedUntilUs, receipt.executionCursorUs)))
  {
    hide AppendVerdict, AvailableHorizonUs;
    AppendNeeds(c, r, k, plan.chunks[k], Final(plan, k));
  }

  lemma LoadedGrows(plan: Plan, r: Run, r': Run, k: nat)
    requires Loaded(plan, r) && Still(r) && k < |plan.chunks| && Taken(plan, r, r', k)
    ensures Loaded(plan, r') && Still(r')
  {
  }

  lemma ChunkForward(c: Config, plan: Plan, r: Run, k: nat)
    requires RunInv(c, plan, r) && k < |plan.chunks|
    ensures RunInv(c, plan, TakeChunk(c, plan, r, k)) && Forward(r, TakeChunk(c, plan, r, k))
    ensures ReplyOk(plan, TakeChunk(c, plan, r, k), ChunkReply(c, plan, r, k))
  {
    hide Inv, Still, AppendStep, Step, ChunkReply, EndUs;
    var r' := TakeChunk(c, plan, r, k);
    TakeIsStep(c, plan, r, k);
    ChunkEffect(c, plan, r, k);
    EndsForward(c, r, r');
    if r' != r { LoadedGrows(plan, r, r', k); }
    ReceiptsBelow(c, r');
  }

  lemma TakeIsStep(c: Config, plan: Plan, r: Run, k: nat)
    requires Inv(c, r) && k < |plan.chunks|
    ensures Inv(c, TakeChunk(c, plan, r, k)) && r.points <= TakeChunk(c, plan, r, k).points
  {
    hide Inv, AppendStep;
    var chunk, final := plan.chunks[k], Final(plan, k);
    var digest := c.digests.chunk(k, chunk, final);
    StepKeeps(c, r, Append(k, chunk, final, digest));
    AppendEffect(c, r, k, chunk, final, digest);
  }

  lemma AppendNeeds(c: Config, r: Run, k: int, points: seq<Point>, final: bool)
    ensures AppendVerdict(c, r, k, points, final).Pass? ==> k == r.expectedSeq && !r.finalReceived
  {
    hide ScanVerdict;
  }

  lemma ReceiptsBelow(c: Config, r: Run)
    requires Inv(c, r)
    ensures forall k :: k in r.receipts <==> 0 <= k < r.expectedSeq
  {
  }

  lemma EndsForward(c: Config, r: Run, r': Run)
    requires Inv(c, r) && Inv(c, r') && r.points <= r'.points
    ensures EndUs(r.points) <= EndUs(r'.points)
  {
    hide Inv;
    TrajectoryOf(c, r');
    var n := |r.points|;
    if n == 0 {
      EndIsNonNegative(c, r');
    } else if n < |r'.points| {
      TimesIncrease(c.policy, r'.points, n - 1, |r'.points| - 1);
    }
  }

  lemma TrajectoryOf(c: Config, r: Run)
    requires Inv(c, r)
    ensures SegmentsOk(c.policy, r.points)
  {
  }

  lemma EndIsNonNegative(c: Config, r: Run)
    requires Inv(c, r)
    ensures 0 <= EndUs(r.points)
  {
  }

  // ---------- every event keeps the invariant ----------

  lemma {:induction false} FarIsBeyond(c: Config, plan: Plan, n: nat)
    requires GoodPlan(c, plan) && Far(plan, n) && n < |plan.chunks|
    ensures plan.targetAheadUs < EndUs(plan.chunks[n])
    ensures Far(plan, n + 1)
  {
    EndsIncrease(plan.chunks, n - 1, n);
  }

  lemma ReachedIsFar(c: Config, plan: Plan, k: nat)
    requires GoodPlan(c, plan) && k < |plan.chunks| && EndUs(plan.chunks[k]) >= PrebufferUs(plan)
    ensures Far(plan, k + 1)
  {
    if k < |plan.chunks| - 1 { EndsIncrease(plan.chunks, k, |plan.chunks| - 1); }
  }

  lemma SendNextKeeps(c: Config, plan: Plan, s: System)
    requires GoodPlan(c, plan) && SystemInv(c, plan, s)
    ensures SystemInv(c, plan, SendNextStep(plan, s))
  {
    hide RunInv, ReplyOk, GoodPlan, Far;
    if s.client.phase.Streaming? && s.client.next < |plan.chunks| { FarIsBeyond(c, plan, s.client.next); }
  }

  /** A client that starts has had its chunks accepted up to the target, or all of them. */
  lemma SendStartKeeps(c: Config, plan: Plan, s: System)
    requires GoodPlan(c, plan) && SystemInv(c, plan, s)
    ensures SystemInv(c, plan, SendStartStep(plan, s))
  {
    hide RunInv, ReplyOk, GoodPlan;
    var s' := SendStartStep(plan, s);
    LoadedIn(c, plan, s.run);
    if s' != s { FarIsReady(c, plan, s.run, s.client.next); }
  }

  lemma LoadedIn(c: Config, plan: Plan, r: Run)
    requires RunInv(c, plan, r)
    ensures r.expectedSeq <= |plan.chunks|
  {
  }

  lemma FarIsReady(c: Config, plan: Plan, r: Run, n: nat)
    requires GoodPlan(c, plan) && RunInv(c, plan, r) && Far(plan, n) && n <= r.expectedSeq
    ensures Ready(plan, r)
  {
    hide BufferInv, CursorInv, ControlInv, TorqueInv, TickInv, CompletionInv, SentInv, Still, Increasing;
    var m := r.expectedSeq;
    if n < |plan.chunks| && !r.finalReceived {
      assert EndUs(r.points) == EndUs(plan.chunks[m - 1]);
      if n < m { EndsIncrease(plan.chunks, n - 1, m - 1); }
    }
  }

  lemma ReceiveKeeps(c: Config, plan: Plan, s: System, i: nat)
    requires GoodPlan(c, plan) && SystemInv(c, plan, s)
    ensures SystemInv(c, plan, ReceiveStep(plan, s, i))
  {
    hide RunInv, RequestOk, GoodPlan, Far, PrebufferUs;
    HasChunks(c, plan);
    if i < |s.toClient| {
      var reply, cl := s.toClient[i], s.client;
      assert ReplyOk(plan, s.run, reply);
      if reply.Ack? && cl.waiting && reply.k == cl.next {
        if reply.untilUs >= PrebufferUs(plan) { ReachedIsFar(c, plan, cl.next); }
        if cl.phase.Streaming? { FarIsBeyond(c, plan, cl.next); }
      }
    }
  }

  lemma HasChunks(c: Config, plan: Plan)
    requires GoodPlan(c, plan)
    ensures plan.chunks != [] && forall k :: 0 <= k < |plan.chunks| ==> plan.chunks[k] != []
  {
  }

  lemma TakeKeeps(c: Config, plan: Plan, s: System)
    requires GoodPlan(c, plan) && SystemInv(c, plan, s)
    ensures SystemInv(c, plan, TakeStep(c, plan, s))
  {
    hide RunInv, GoodPlan, Far, Forward, StartStep, TakeChunk, ChunkReply, RequestOk, ReplyOk, ClientOk;
    HasChunks(c, plan);
    if s.toServer != [] {
      var rest := s.(toServer := s.toServer[1..]);
      match s.toServer[0]
      case ChunkRequest(k, _) =>
        if k < |plan.chunks| {
          ChunkForward(c, plan, s.run, k);
          ForwardKeeps(c, plan, rest, TakeChunk(c, plan, s.run, k));
        }
      case StartRequest =>
        StepForward(c, plan, s.run, Start);
        ForwardKeeps(c, plan, rest, StartStep(c, s.run));
        StartReply(c, plan, s.run);
    }
  }

  lemma StartReply(c: Config, plan: Plan, r: Run)
    ensures ReplyOk(plan, StartStep(c, r), Report(r.cursorUs))
    ensures forall code :: ReplyOk(plan, StartStep(c, r), Refusal(code))
  {
    hide StartVerdict;
  }

  lemma NextKeeps(c: Config, plan: Plan, s: System, e: Event)
    requires GoodPlan(c, plan) && SystemInv(c, plan, s)
    ensures plan.chunks != [] && SystemInv(c, plan, Next(c, plan, s, e))
  {
    hide RunInv, GoodPlan, Far, Forward, RequestOk, Step, SendNextStep, SendStartStep, ReceiveStep, TakeStep;
    HasChunks(c, plan);
    match e
    case SendNext => SendNextKeeps(c, plan, s);
    case SendStart => SendStartKeeps(c, plan, s);
    case Receive(i) => ReceiveKeeps(c, plan, s, i);
    case ServerTakes => TakeKeeps(c, plan, s);
    case ServerRuns(action) =>
      if !action.Append? && !action.Start? {
        StepForward(c, plan, s.run, action);
        ForwardKeeps(c, plan, s, Step(c, s.run, action));
      }
    case ServerReports =>
    case GiveUp =>
  }

  lemma {:induction false} HistoryKeeps(c: Config, plan: Plan, s: System, events: seq<Event>)
    requires GoodPlan(c, plan) && SystemInv(c, plan, s)
    ensures plan.chunks != [] && SystemInv(c, plan, History(c, plan, s, events))
    decreases |events|
  {
    hide SystemInv, GoodPlan, Next;
    HasChunks(c, plan);
    if events != [] {
      NextKeeps(c, plan, s, events[0]);
      HistoryKeeps(c, plan, Next(c, plan, s, events[0]), events[1..]);
    }
  }

  lemma OpenedIsGood(c: Config, plan: Plan, nowUs: int)
    requires GoodPlan(c, plan)
    ensures SystemInv(c, plan, Opened(nowUs))
  {
    Reachable(c, nowUs, []);
  }

  // ---------- the theorem ----------

  /** For every program and every schedule: a chunk sent after the start request reaches
      the server when it is neither buffering nor arming and is never refused as
      QUEUE_FULL, and the start request itself is never refused as NOT_READY. */
  lemma StreamingNeverBlocked(c: Config, plan: Plan, nowUs: int, events: seq<Event>)
    requires GoodPlan(c, plan)
    ensures plan.chunks != []
    ensures var s := History(c, plan, Opened(nowUs), events);
            s.toServer != [] ==>
              match s.toServer[0]
              case StartRequest => StartVerdict(c, s.run) != Fail(NotReady)
              case ChunkRequest(k, early) =>
                k < |plan.chunks| &&
                (!early ==> !s.run.state.Buffering? && !s.run.state.Arming?) &&
                (!early ==> ChunkOutcome(c, plan, s.run, k) != Rejected(QueueFull))
  {
    hide History, Opened, RunInv, ClientOk, ReplyOk;
    HasChunks(c, plan);
    OpenedIsGood(c, plan, nowUs);
    HistoryKeeps(c, plan, Opened(nowUs), events);
    var s := History(c, plan, Opened(nowUs), events);
    if s.toServer != [] {
      var request := s.toServer[0];
      assert RequestOk(plan, s.run, request);
      if request.StartRequest? {
        ReadyStarts(c, plan, s.run);
      } else if !request.early {
        NearIsTaken(c, plan, s.run, request.k);
      }
    }
  }

  lemma ReadyStarts(c: Config, plan: Plan, r: Run)
    requires GoodPlan(c, plan) && RunInv(c, plan, r) && Ready(plan, r)
    ensures StartVerdict(c, r) != Fail(NotReady)
  {
    hide ReceiptInv, ControlInv, TorqueInv, TickInv, CompletionInv, SentInv, Loaded, Increasing;
  }

  lemma NearIsTaken(c: Config, plan: Plan, r: Run, k: nat)
    requires GoodPlan(c, plan) && RunInv(c, plan, r) && RequestOk(plan, r, ChunkRequest(k, false))
    ensures !r.state.Buffering? && !r.state.Arming? && ChunkOutcome(c, plan, r, k) != Rejected(QueueFull)
  {
    hide Inv, Loaded, Increasing;
    NoOtherQueueFull(c, r, k, plan.chunks[k], Final(plan, k));
  }

  /** QUEUE_FULL has one cause. */
  lemma NoOtherQueueFull(c: Config, r: Run, k: int, points: seq<Point>, final: bool)
    ensures AdmitVerdict(c, r, k, points, final) == Fail(QueueFull) ==>
              EndUs(points) - r.cursorUs > c.policy.maxHorizonUs
  {
    hide ScanVerdict;
    ScanIsNeverQueueFull(c, r.origin, LastPoint(r.points), points);
  }

  lemma {:induction false} ScanIsNeverQueueFull(c: Config, origin: Option<Pose>, previous: Option<Point>,
                                                points: seq<Point>)
    ensures ScanVerdict(c, origin, previous, points) != Fail(QueueFull)
    decreases |points|
  {
    hide PointVerdict;
    if points != [] {
      PointIsNeverQueueFull(c, origin, previous, points[0]);
      ScanIsNeverQueueFull(c, origin, Some(points[0]), points[1..]);
    }
  }

  lemma PointIsNeverQueueFull(c: Config, origin: Option<Pose>, previous: Option<Point>, point: Point)
    ensures PointVerdict(c, origin, previous, point) != Fail(QueueFull)
  {
    hide RateVerdict, PositionOk, ResolvedOk, StartsAtOrigin;
    if previous.Some? && c.policy.minSegmentUs <= point.tUs - previous.value.tUs {
      RateCodes(c.policy, previous.value, point, 0);
    }
  }

  lemma {:induction false} RateCodes(policy: Policy, previous: Point, current: Point, j: nat)
    requires previous.tUs < current.tUs && j <= JOINT_COUNT
    ensures RateVerdict(policy, previous, current, j) != Fail(QueueFull)
    decreases JOINT_COUNT - j
  {
    hide JointVelocityOk, JointAccelerationOk;
    if j < JOINT_COUNT { RateCodes(policy, previous, current, j + 1); }
  }

  /** Before the start the same is not promised: the cursor is still at zero, so a
      prebuffer chunk that is otherwise admissible is refused as QUEUE_FULL exactly when it
      ends beyond the horizon itself. */
  lemma PrebufferQueueFullIff(c: Config, plan: Plan, nowUs: int, events: seq<Event>, k: nat)
    requires GoodPlan(c, plan) && k < |plan.chunks|
    requires var r := History(c, plan, Opened(nowUs), events).run;
             r.state.Buffering? && r.expectedSeq == k && !r.finalReceived &&
             |plan.chunks[k]| <= c.policy.maxChunkPoints &&
             ScanVerdict(c, r.origin, LastPoint(r.points), plan.chunks[k]).Pass? &&
             |r.points| + |plan.chunks[k]| <= c.policy.maxPoints && EndUs(plan.chunks[k]) <= c.policy.maxDurationUs &&
             (Final(plan, k) ==> 2 <= |r.points| + |plan.chunks[k]|)
    ensures var r := History(c, plan, Opened(nowUs), events).run;
            ChunkOutcome(c, plan, r, k) == Rejected(QueueFull) <==> c.policy.maxHorizonUs < EndUs(plan.chunks[k])
  {
    hide History, Opened, ScanVerdict;
    HasChunks(c, plan);
    OpenedIsGood(c, plan, nowUs);
    HistoryKeeps(c, plan, Opened(nowUs), events);
    var r := History(c, plan, Opened(nowUs), events).run;
    ReceiptsBelow(c, r);
    assert r.cursorUs == 0;
  }

  /** Such a chunk exists for the default policy: two points at rest, 40 seconds apart, are
      sent first thing and refused. */
  lemma PrebufferCanOverflow(c: Config, nowUs: int) returns (plan: Plan)
    requires c.policy == DEFAULT_POLICY && c.header.mode.AbsoluteDeg? && c.runMode.Streaming?
    ensures GoodPlan(c, plan) && plan.targetAheadUs == 2000000
    ensures var s := Next(c, plan, Opened(nowUs), SendNext);
            s.toServer == [ChunkRequest(0, true)] && ChunkOutcome(c, plan, s.run, 0) == Rejected(QueueFull)
  {
    hide ScanVerdict;
    var chunk := AtRest(40000000);
    plan := Plan([chunk], 2000000);
    assert Flatten(plan.chunks) == chunk by {
      assert plan.chunks[1..] == [] && Flatten([]) == [];
    }
    assert History(c, plan, Opened(nowUs), []) == Opened(nowUs);
    RestIsAdmissible(c, 40000000);
    PrebufferQueueFullIff(c, plan, nowUs, [], 0);
  }

  // ---------- what the client does ----------

  /** The client sends exactly the next chunk, one at a time: while prebuffering has not
      reached its target, or later when the chunk ends within the target of the reported
      cursor. */
  lemma SendsExactly(c: Config, plan: Plan, s: System)
    requires plan.chunks != []
    ensures var s' := Next(c, plan, s, SendNext);
            var cl := s.client;
            var sends := !cl.waiting && cl.next < |plan.chunks| &&
                         (cl.phase == Prebuffering(false) ||
                          (cl.phase.Streaming? && EndUs(plan.chunks[cl.next]) <= cl.cursorUs + plan.targetAheadUs));
            s'.run == s.run && s'.toClient == s.toClient &&
            s'.client == (if sends then cl.(waiting := true) else cl) &&
            s'.toServer == s.toServer +
                           (if sends then [ChunkRequest(cl.next, cl.phase.Prebuffering?)] else [])
  {
  }

  /** The client starts exactly once prebuffering is done: the target is reached, or there
      is nothing left to send, and no receipt is outstanding. */
  lemma StartsExactly(c: Config, plan: Plan, s: System)
    requires plan.chunks != []
    ensures var s' := Next(c, plan, s, SendStart);
            var starts := s.client.phase.Prebuffering? && !s.client.waiting &&
                          (s.client.phase.reached || |plan.chunks| <= s.client.next);
            s'.run == s.run && s'.toClient == s.toClient &&
            s'.client == (if starts then s.client.(phase := Phase.Streaming) else s.client) &&
            s'.toServer == s.toServer + (if starts then [StartRequest] else [])
  {
  }

  /** A receipt for the chunk that is waited for moves the client on by one chunk and to the
      reported cursor; prebuffering is done exactly when the receipt reaches the target or
      the end of the program, whichever is nearer. */
  lemma ReceiptMovesOn(plan: Plan, cl: Client, untilUs: int, cursorUs: int)
    requires plan.chunks != [] && cl.waiting
    ensures var cl' := Hear(plan, cl, Ack(cl.next, untilUs, cursorUs));
            cl'.next == cl.next + 1 && !cl'.waiting && cl'.cursorUs == cursorUs &&
            (cl.phase.Prebuffering? ==>
               cl'.phase.Prebuffering? &&
               (cl'.phase.reached <==>
                  plan.targetAheadUs <= untilUs || EndUs(plan.chunks[|plan.chunks| - 1]) <= untilUs)) &&
            (!cl.phase.Prebuffering? ==> cl'.phase == cl.phase)
  {
  }

  /** A refused chunk, and nothing else that is heard, makes the client give up. */
  lemma RefusalEnds(plan: Plan, cl: Client, reply: Reply)
    requires plan.chunks != []
    ensures Hear(plan, cl, reply).phase.Aborted? <==> cl.phase.Aborted? || (cl.waiting && reply.Refusal?)
    ensures reply.Refusal? ==> Hear(plan, cl, reply).next == cl.next && Hear(plan, cl, reply).cursorUs == cl.cursorUs
  {
  }

  /** Once it has given up the client sends nothing more, whatever still arrives. */
  lemma {:induction false} AbortedIsSilent(c: Config, plan: Plan, s: System, events: seq<Event>)
    requires plan.chunks != [] && s.client.phase.Aborted?
    ensures var s' := History(c, plan, s, events);
            s'.client.phase.Aborted? && |s'.toServer| <= |s.toServer| &&
            s'.toServer == s.toServer[|s.toServer| - |s'.toServer|..]
    decreases |events|
  {
    hide Step, StartStep, AppendStep, AppendOutcome, StartVerdict;
    if events != [] {
      var s' := Next(c, plan, s, events[0]);
      if events[0].Receive? && events[0].i < |s.toClient| {
        RefusalEnds(plan, s.client, s.toClient[events[0].i]);
      }
      AbortedIsSilent(c, plan, s', events[1..]);
    }
  }
}
