/** The controller that owns the one robot arm of a v1 server (robot_server.py,
    ProgramController): many runs over time, one active at most. */
module Controller {
  import opened Wrappers
  import opened Protocol
  import opened RunModel
  import opened RunSafety
  import opened RunGuarantees
  import opened ProgramRuns

  /** A run together with the configuration it was opened with. */
  datatype Session = Session(config: Config, run: Run)

  /** All runs ever opened, oldest first; `active` is the controller's own reference. */
  datatype Server = Server(sessions: seq<Session>, active: Option<nat>)

  datatype Event =
    | OpenRun(runId: string, config: Config, nowUs: int)
    | On(session: nat, action: Action)

  predicate WellFormed(runId: string, config: Config) {
    (config.disconnect.CompleteIfSealed? ==> config.runMode.Sealed?) &&
    1 <= |runId| <= 128 && |config.expectedDigest| == 64
  }

  function OpenVerdict(server: Server, runId: string, config: Config): Verdict {
    if !WellFormed(runId, config) then Fail(SchemaInvalid)
    else if server.active.Some? && server.active.value < |server.sessions| &&
            !server.sessions[server.active.value].run.state.Terminal() then Fail(RunStateConflict)
    else Pass
  }

  function Next(server: Server, e: Event): Server {
    match e
    case OpenRun(runId, config, nowUs) =>
      if OpenVerdict(server, runId, config).Fail? then server
      else Server(server.sessions + [Session(config, Initial(nowUs))], Some(|server.sessions|))
    case On(i, action) =>
      if i < |server.sessions| then
        var s := server.sessions[i];
        server.(sessions := server.sessions[i := s.(run := Step(s.config, s.run, action))])
      else server
  }

  function History(server: Server, events: seq<Event>): Server
    decreases |events|
  {
    if events == [] then server else History(Next(server, events[0]), events[1..])
  }

  ghost predicate ServerInv(server: Server) {
    (forall i :: 0 <= i < |server.sessions| ==> Inv(server.sessions[i].config, server.sessions[i].run)) &&
    (server.active.Some? ==> server.active.value < |server.sessions|) &&
    (forall i :: 0 <= i < |server.sessions| && server.active != Some(i) ==> server.sessions[i].run.state.Terminal())
  }

  lemma NextKeeps(server: Server, e: Event)
    requires ServerInv(server)
    ensures ServerInv(Next(server, e))
  {
    hide Inv, Step, Initial;
    match e
    case OpenRun(_, config, nowUs) => Reachable(config, nowUs, []);
    case On(i, action) =>
      if i < |server.sessions| {
        var s := server.sessions[i];
        StepKeeps(s.config, s.run, action);
        if s.run.state.Terminal() { TerminalStep(s.config, s.run, action); }
      }
  }

  lemma {:induction false} HistoryKeeps(server: Server, events: seq<Event>)
    requires ServerInv(server)
    ensures ServerInv(History(server, events))
    decreases |events|
  {
    hide ServerInv, Next;
    if events != [] {
      NextKeeps(server, events[0]);
      HistoryKeeps(Next(server, events[0]), events[1..]);
    }
  }

  /** Whatever runs are opened, started, stopped, disconnected or crashed, and in
      whatever order, at most one of them has its torque flag set, and it is the active
      one. */
  lemma AtMostOneRunEnabled(events: seq<Event>, i: nat, k: nat)
    requires i < |History(Server([], None), events).sessions| && k < |History(Server([], None), events).sessions|
    requires History(Server([], None), events).sessions[i].run.torque
    requires History(Server([], None), events).sessions[k].run.torque
    ensures i == k
    ensures History(Server([], None), events).active == Some(i)
  {
    hide Inv, History;
    var server := History(Server([], None), events);
    HistoryKeeps(Server([], None), events);
    var a, b := server.sessions[i], server.sessions[k];
    if a.run.state.Terminal() { TerminalIsCold(a.config, a.run); }
    if b.run.state.Terminal() { TerminalIsCold(b.config, b.run); }
  }

  /** The event closes the backend of run `i` and leaves the motors on. */
  predicate LeavesRunHot(server: Server, e: Event, i: nat) {
    e.On? && e.session == i && i < |server.sessions| && LeavesHot(server.sessions[i].run, e.action)
  }

  predicate LeftHot(server: Server, events: seq<Event>, i: nat)
    decreases |events|
  {
    events != [] && (LeavesRunHot(server, events[0], i) || LeftHot(Next(server, events[0]), events[1..], i))
  }

  predicate HotAfterClose(server: Server, i: nat) {
    i < |server.sessions| && BeyondClose(server.sessions[i].run.exec) && server.sessions[i].run.hot
  }

  lemma NextHot(server: Server, e: Event, i: nat)
    requires ServerInv(server)
    ensures HotAfterClose(Next(server, e), i) <==> LeavesRunHot(server, e, i) || HotAfterClose(server, i)
  {
    hide Inv, Step, BeyondClose, LeavesHot;
    match e
    case OpenRun(_, _, nowUs) => FreshIsBefore(nowUs);
    case On(k, action) =>
      if k == i && i < |server.sessions| {
        CloseStepExactly(server.sessions[i].config, server.sessions[i].run, action);
      }
  }

  lemma FreshIsBefore(nowUs: int)
    ensures !BeyondClose(Initial(nowUs).exec)
  {
  }

  lemma {:induction false} HistoryHot(server: Server, events: seq<Event>, i: nat)
    requires ServerInv(server)
    ensures HotAfterClose(History(server, events), i) <==> LeftHot(server, events, i) || HotAfterClose(server, i)
    decreases |events|
  {
    hide ServerInv, Next, LeavesRunHot, HotAfterClose;
    if events != [] {
      NextHot(server, events[0], i);
      NextKeeps(server, events[0]);
      HistoryHot(Next(server, events[0]), events[1..], i);
    }
  }

  /** A run that has ended has energised motors exactly when its close left them on. */
  lemma EndedRunIsHotExactly(events: seq<Event>, i: nat)
    requires i < |History(Server([], None), events).sessions|
    requires History(Server([], None), events).sessions[i].run.state.Terminal()
    ensures History(Server([], None), events).sessions[i].run.hot <==> LeftHot(Server([], None), events, i)
  {
    hide Inv, History, LeftHot;
    HistoryHot(Server([], None), events, i);
    HistoryKeeps(Server([], None), events);
    var s := History(Server([], None), events).sessions[i];
    TerminalIsCold(s.config, s.run);
  }

  /** If every close that returns has switched the torque off, then at most one run has the
      motors energised or believes so, and it is the active one. */
  lemma AtMostOneRunEnergised(events: seq<Event>, i: nat, k: nat)
    requires forall n :: 0 <= n < |events| && events[n].On? ==> events[n].action != HoldThenClose(true, true)
    requires i < |History(Server([], None), events).sessions| && k < |History(Server([], None), events).sessions|
    requires var a := History(Server([], None), events).sessions[i].run; a.torque || a.hot
    requires var b := History(Server([], None), events).sessions[k].run; b.torque || b.hot
    ensures i == k
    ensures History(Server([], None), events).active == Some(i)
  {
    hide Inv, History;
    var server := History(Server([], None), events);
    HistoryKeeps(Server([], None), events);
    EndedRunIsCold(events, i);
    EndedRunIsCold(events, k);
  }

  lemma EndedRunIsCold(events: seq<Event>, i: nat)
    requires forall n :: 0 <= n < |events| && events[n].On? ==> events[n].action != HoldThenClose(true, true)
    requires i < |History(Server([], None), events).sessions|
    ensures var run := History(Server([], None), events).sessions[i].run;
            run.state.Terminal() ==> !run.torque && !run.hot
  {
    hide Inv, History, LeftHot;
    var s := History(Server([], None), events).sessions[i];
    HistoryKeeps(Server([], None), events);
    NeverLeftHot(Server([], None), events, i);
    if s.run.state.Terminal() {
      TerminalIsCold(s.config, s.run);
      EndedRunIsHotExactly(events, i);
    }
  }

  lemma {:induction false} NeverLeftHot(server: Server, events: seq<Event>, i: nat)
    requires forall n :: 0 <= n < |events| && events[n].On? ==> events[n].action != HoldThenClose(true, true)
    ensures !LeftHot(server, events, i)
    decreases |events|
  {
    hide Next;
    if events != [] { NeverLeftHot(Next(server, events[0]), events[1..], i); }
  }

  /** Without that promise the controller does open the next run beside energised motors:
      the first run has ended hot, the second is accepted. */
  lemma NextRunBesideHotMotors(runId: string, config: Config, nowUs: int) returns (events: seq<Event>)
    requires WellFormed(runId, config) && config.policy == DEFAULT_POLICY
    requires config.header.mode.AbsoluteDeg? && config.runMode.Sealed?
    requires config.digests.program(config.header, AtRest(1000000)) == config.expectedDigest
    ensures var s := History(Server([], None), events);
            |s.sessions| == 1 && s.sessions[0].run.state.Terminal() && s.sessions[0].run.hot &&
            OpenVerdict(s, runId, config).Pass? && |Next(s, OpenRun(runId, config, nowUs)).sessions| == 2
  {
    hide Inv, Step, WellFormed, Initial, Execute, History;
    var actions := TerminalCanBeHot(config, nowUs);
    events := FirstRun(runId, config, nowUs, actions);
  }

  /** The first run of a controller may do whatever a run can do. */
  lemma FirstRun(runId: string, config: Config, nowUs: int, actions: seq<Action>) returns (events: seq<Event>)
    requires WellFormed(runId, config)
    ensures History(Server([], None), events)
         == Server([Session(config, Execute(config, Initial(nowUs), actions))], Some(0))
  {
    hide Inv, Step, WellFormed, Initial, Execute;
    var opened' := Next(Server([], None), OpenRun(runId, config, nowUs));
    assert opened' == Server([Session(config, Initial(nowUs))], Some(0));
    OneSession(config, Initial(nowUs), actions);
    events := [OpenRun(runId, config, nowUs)] + OnFirst(actions);
    assert events[1..] == OnFirst(actions);
  }

  /** In every reachable state, a well-formed request to open a run is refused, and changes
      nothing, exactly while any run that was ever opened has not ended. */
  lemma OpenRefusedWhileLive(events: seq<Event>, runId: string, config: Config, nowUs: int)
    requires WellFormed(runId, config)
    ensures var server := History(Server([], None), events);
            Next(server, OpenRun(runId, config, nowUs)) == server <==>
              exists i :: 0 <= i < |server.sessions| && !server.sessions[i].run.state.Terminal()
  {
    hide Inv, Initial, History, WellFormed;
    var server := History(Server([], None), events);
    HistoryKeeps(Server([], None), events);
    var opened' := Server(server.sessions + [Session(config, Initial(nowUs))], Some(|server.sessions|));
    assert |opened'.sessions| == |server.sessions| + 1;
    NeedsActive(events);
  }

  lemma NeedsActive(events: seq<Event>)
    ensures History(Server([], None), events).active.None? ==> History(Server([], None), events).sessions == []
  {
    hide History;
    ActiveStays(Server([], None), events);
  }

  lemma {:induction false} ActiveStays(server: Server, events: seq<Event>)
    requires server.active.None? ==> server.sessions == []
    ensures History(server, events).active.None? ==> History(server, events).sessions == []
    decreases |events|
  {
    hide Step, WellFormed, Initial;
    if events != [] { ActiveStays(Next(server, events[0]), events[1..]); }
  }

  lemma CrashedStays(server: Server, e: Event, i: nat)
    requires ServerInv(server) && i < |server.sessions| && server.sessions[i].run.exec.Crashed?
    ensures var s := Next(server, e);
            s.active == server.active == Some(i) && |s.sessions| == |server.sessions| && s.sessions[i].run.exec.Crashed?
  {
    hide Inv, Step;
    var s := server.sessions[i];
    CrashedIsLive(s.config, s.run);
    if e.On? && e.session == i { CrashedStep(s.config, s.run, e.action); }
  }

  /** A run whose backend could not be closed blocks the controller for good: after any
      later events it is still the active one, no other run has been opened, and every
      further request to open one is refused and changes nothing. */
  lemma {:induction false} CrashBlocksForever(server: Server, i: nat, events: seq<Event>, runId: string, config: Config,
                                              nowUs: int)
    requires ServerInv(server) && i < |server.sessions| && server.sessions[i].run.exec.Crashed?
    requires WellFormed(runId, config)
    ensures var s := History(server, events);
            s.active == Some(i) && |s.sessions| == |server.sessions| && s.sessions[i].run.exec.Crashed? &&
            OpenVerdict(s, runId, config) == Fail(RunStateConflict) && Next(s, OpenRun(runId, config, nowUs)) == s
    decreases |events|
  {
    hide Inv, WellFormed, Step, Initial;
    if events == [] {
      var s := server.sessions[i];
      CrashedIsLive(s.config, s.run);
    } else {
      CrashedStays(server, events[0], i);
      NextKeeps(server, events[0]);
      CrashBlocksForever(Next(server, events[0]), i, events[1..], runId, config, nowUs);
    }
  }

  /** ... and a controller does get there: an ordinary run, one failing close. */
  lemma ControllerCanBlock(runId: string, config: Config, nowUs: int) returns (events: seq<Event>)
    requires WellFormed(runId, config) && config.policy == DEFAULT_POLICY
    requires config.header.mode.AbsoluteDeg? && config.runMode.Sealed?
    requires config.digests.program(config.header, AtRest(1000000)) == config.expectedDigest
    ensures var s := History(Server([], None), events);
            ServerInv(s) && |s.sessions| == 1 && s.sessions[0].run.exec.Crashed?
  {
    hide Inv, Step, WellFormed, Initial, Execute, History;
    var actions := CrashIsReachable(config, nowUs);
    events := FirstRun(runId, config, nowUs, actions);
    HistoryKeeps(Server([], None), events);
  }

  function OnFirst(actions: seq<Action>): seq<Event> {
    if actions == [] then [] else [On(0, actions[0])] + OnFirst(actions[1..])
  }

  lemma {:induction false} OneSession(config: Config, r: Run, actions: seq<Action>)
    ensures History(Server([Session(config, r)], Some(0)), OnFirst(actions))
         == Server([Session(config, Execute(config, r, actions))], Some(0))
    decreases |actions|
  {
    hide Step;
    if actions != [] {
      assert OnFirst(actions)[0] == On(0, actions[0]) && OnFirst(actions)[1..] == OnFirst(actions[1..]);
      var server := Server([Session(config, r)], Some(0));
      assert Next(server, On(0, actions[0])).sessions == [Session(config, Step(config, r, actions[0]))];
      OneSession(config, Step(config, r, actions[0]), actions[1..]);
    }
  }

  class ProgramController {
    var active: ProgramRun?

    constructor ()
      ensures active == null
    {
      active := null;
    }

    /** Accepts a run only if it is well formed and no other run is live; the new run
        starts empty, cold and buffering. */
    method OpenRun(runId: string, config: Config, nowUs: int) returns (v: Verdict)
      modifies this
      ensures v.Pass? <==> WellFormed(runId, config) && (old(active) == null || old(active.state).Terminal())
      ensures v.Fail? ==> active == old(active)
      ensures v.Fail? ==> v.code == if WellFormed(runId, config) then RunStateConflict else SchemaInvalid
      ensures v.Pass? ==> active != null && fresh(active) && active.cfg == config
      ensures v.Pass? ==> active.View() == Initial(nowUs) && Inv(config, active.View())
    {
      hide Inv;
      if config.disconnect == CompleteIfSealed && config.runMode != Sealed { return Fail(SchemaInvalid); }
      if runId == "" || |runId| > 128 { return Fail(SchemaInvalid); }
      if |config.expectedDigest| != 64 { return Fail(SchemaInvalid); }
      if active != null && !active.state.Terminal() { return Fail(RunStateConflict); }
      active := new ProgramRun(config, nowUs);
      return Pass;
    }

    /** Stops whatever run is active; there is none to stop on an idle controller. */
    method EmergencyStop() returns (stopped: bool)
      requires active != null ==> Inv(active.cfg, active.View())
      modifies active
      ensures stopped <==> active != null
      ensures active != null ==> Inv(active.cfg, active.View()) && active.View() == StopStep(old(active.View()))
    {
      hide Inv;
      if active == null { return false; }
      active.AskToStop();
      return true;
    }
  }
}
