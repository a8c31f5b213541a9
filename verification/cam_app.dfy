/**
  The sequential decision logic of the cam tool (CamApp in src/cam/main.cpp):
  option-parse result codes, start-up, the run sequence that decides whether
  to enter the event loop, the teardown in exec, and main's exit status.
  The camera manager and camera session are collaborators whose outcomes are
  parameters; the event loop itself is modelled by Liveness.Dispatch.
 */
module CamApp {
  import opened Errno
  import opened Liveness

  /** The options run() and parseOptions() look at, each "is it set". */
  datatype Options = Options(
    camera: bool,
    capture: bool,
    help: bool,
    info: bool,
    list: bool,
    listControls: bool,
    listProperties: bool,
    monitor: bool)

  /** What the options parser produced: whether it was valid, whether no option was given, and the flags. */
  datatype Parsed = Parsed(valid: bool, empty: bool, options: Options)

  /** The camera session's outcomes: whether construction succeeded, and what start() returns. */
  datatype Session = Session(valid: bool, startResult: int)

  /**
    CamApp::parseOptions: -EINVAL for an invalid or empty command line,
    -EINTR when help was asked for (usage printed), 0 otherwise.
   */
  function ParseOptions(p: Parsed): (ret: int)
    ensures ret == 0 || ret == -EINVAL || ret == -EINTR
    ensures ret == -EINVAL <==> !p.valid || p.empty
    ensures ret == -EINTR <==> p.valid && !p.empty && p.options.help
  {
    if !p.valid then -EINVAL
    else if p.empty || p.options.help then (if p.empty then -EINVAL else -EINTR)
    else 0
  }

  /** The result of init(): its return code and whether the camera manager's start() was called. */
  datatype InitOutcome = InitOutcome(ret: int, managerStartCalled: bool)

  /**
    CamApp::init: a parse error is returned without the camera manager being
    started; otherwise the camera manager's start result is returned.
   */
  function Init(p: Parsed, managerStart: int): (r: InitOutcome)
    ensures ParseOptions(p) != 0 ==> r.ret == ParseOptions(p) && !r.managerStartCalled
    ensures ParseOptions(p) == 0 ==> r.managerStartCalled && r.ret == managerStart
    ensures r.ret == 0 <==> ParseOptions(p) == 0 && managerStart == 0
  {
    var ret := ParseOptions(p);
    if ret < 0 then InitOutcome(ret, false)
    else InitOutcome(managerStart, true)
  }

  predicate InfoRequested(o: Options)
  {
    o.listControls || o.listProperties || o.info
  }

  /** The options and session outcomes under which run() gets past every error check. */
  predicate ReachesLoop(o: Options, s: Session)
  {
    && (o.camera ==> s.valid)
    && (InfoRequested(o) ==> o.camera)
    && (o.capture ==> o.camera && s.startResult == 0)
  }

  /**
    What run() did: its return code, whether the cameras were listed, whether
    camera information was printed, whether the session was started, the value
    of loopUsers_ when run() decides about the loop (or returns early), whether
    the loop was entered and whether the session was stopped.
   */
  datatype RunOutcome = RunOutcome(
    ret: int,
    listed: bool,
    infoShown: bool,
    startCalled: bool,
    users: uint32,
    loopEntered: bool,
    stopCalled: bool)

  function Count(b: bool): nat
  {
    if b then 1 else 0
  }

  /**
    CamApp::run as written, starting from whatever value loopUsers_ holds.
    Listing happens first; then session creation, information, capture start
    and monitoring, each of which may return early; the loop is entered iff
    the counter is non-zero; the session is stopped iff capture was requested.
   */
  function RunFrom(users0: uint32, o: Options, s: Session): (r: RunOutcome)
    ensures r.ret == 0 <==> ReachesLoop(o, s)
    ensures r.ret != 0 ==> r.users == users0 && !r.loopEntered && !r.stopCalled
    ensures r.ret == 0 ==> (r.loopEntered <==> r.users != 0) && (r.stopCalled <==> o.capture)
    ensures r.ret == 0 ==> r.users == (users0 + Count(o.capture) + Count(o.monitor)) % UINT_MODULUS
  {
    if o.camera && !s.valid then
      RunOutcome(-EINVAL, o.list, false, false, users0, false, false)
    else if InfoRequested(o) && !o.camera then
      RunOutcome(-EINVAL, o.list, false, false, users0, false, false)
    else if o.capture && !o.camera then
      RunOutcome(-ENODEV, o.list, InfoRequested(o), false, users0, false, false)
    else if o.capture && s.startResult != 0 then
      RunOutcome(s.startResult, o.list, InfoRequested(o), true, users0, false, false)
    else
      var afterCapture := if o.capture then Increment(users0) else users0;
      var afterMonitor := if o.monitor then Increment(afterCapture) else afterCapture;
      RunOutcome(0, o.list, InfoRequested(o), o.capture, afterMonitor, afterMonitor != 0, o.capture)
  }

  /**
    CamApp::run with loopUsers_ starting at zero. Errors come in a fixed order
    and none of them enters the loop; on success the counter holds one user
    for a started capture and one for monitoring.
   */
  function Run(o: Options, s: Session): (r: RunOutcome)
    ensures r.listed == o.list
    ensures o.camera && !s.valid ==>
              r.ret == -EINVAL && !r.infoShown && !r.startCalled
    ensures !(o.camera && !s.valid) && InfoRequested(o) && !o.camera ==>
              r.ret == -EINVAL && !r.infoShown && !r.startCalled
    ensures !InfoRequested(o) && o.capture && !o.camera ==>
              r.ret == -ENODEV && !r.startCalled
    ensures o.camera && s.valid && o.capture && s.startResult != 0 ==>
              r.ret == s.startResult && r.startCalled && r.users == 0
    ensures r.ret != 0 ==> !r.loopEntered && !r.stopCalled
    ensures r.infoShown <==> InfoRequested(o) && o.camera && s.valid
    ensures r.startCalled <==> o.capture && o.camera && s.valid
    ensures r.ret == 0 <==> ReachesLoop(o, s)
    ensures r.ret == 0 ==>
              && r.users == Count(o.capture) + Count(o.monitor)
              && (r.loopEntered <==> o.capture || o.monitor)
              && (r.stopCalled <==> o.capture)
  {
    RunFrom(0, o, s)
  }

  /** The calls into the collaborators, in the order the tool makes them. */
  datatype Action = ManagerStart | SessionStart | LoopExec | SessionStop | ManagerStop

  /** The collaborator calls run() makes: session start, entering the loop, session stop. */
  function RunActions(r: RunOutcome): seq<Action>
  {
    (if r.startCalled then [SessionStart] else [])
    + (if r.loopEntered then [LoopExec] else [])
    + (if r.stopCalled then [SessionStop] else [])
  }

  /** True when `a` occurs in `t` only as its last element. */
  predicate OnlyLast(t: seq<Action>, a: Action)
  {
    forall i :: 0 <= i < |t| && t[i] == a ==> i == |t| - 1
  }

  /** The result of exec(): run's return code and outcome, and the collaborator calls made. */
  datatype ExecOutcome = ExecOutcome(ret: int, run: RunOutcome, trace: seq<Action>)

  /**
    CamApp::exec: run, then cleanup (camera manager stop) whatever run
    returned, so the manager stop is the last call and comes exactly once.
   */
  function Exec(o: Options, s: Session): (r: ExecOutcome)
    ensures r.run == Run(o, s) && r.ret == Run(o, s).ret
    ensures |r.trace| >= 1 && r.trace[|r.trace| - 1] == ManagerStop
    ensures forall i :: 0 <= i < |r.trace| - 1 ==> r.trace[i] != ManagerStop
    ensures SessionStart in r.trace <==> r.run.startCalled
    ensures LoopExec in r.trace <==> r.run.loopEntered
    ensures SessionStop in r.trace <==> r.run.stopCalled
    ensures ManagerStart !in r.trace
  {
    var run := Run(o, s);
    ExecOutcome(run.ret, run, RunActions(run) + [ManagerStop])
  }

  /** The observable result of main(): exit status and the collaborator calls made, in order. */
  datatype MainOutcome = MainOutcome(status: int, trace: seq<Action>)

  /**
    main: init's -EINTR (help) exits with 0, any other init failure with
    EXIT_FAILURE; otherwise exec runs and any non-zero result is EXIT_FAILURE.
   */
  function Main(p: Parsed, managerStart: int, s: Session): (r: MainOutcome)
    ensures r.status == 0 || r.status == EXIT_FAILURE
    ensures p.valid && !p.empty && p.options.help ==> r.status == 0 && r.trace == []
    ensures !p.valid || p.empty ==> r.status == EXIT_FAILURE && r.trace == []
    ensures ParseOptions(p) == 0 && managerStart != 0 ==>
              && r.trace == [ManagerStart]
              && r.status == (if managerStart == -EINTR then 0 else EXIT_FAILURE)
    ensures ParseOptions(p) == 0 && managerStart == 0 ==>
              && |r.trace| >= 2 && r.trace[0] == ManagerStart && r.trace[|r.trace| - 1] == ManagerStop
              && (r.status == 0 <==> ReachesLoop(p.options, s))
              && (LoopExec in r.trace <==> Run(p.options, s).loopEntered)
    ensures ManagerStop in r.trace <==> ManagerStart in r.trace && managerStart == 0
    ensures forall i :: 0 <= i < |r.trace| && r.trace[i] == ManagerStart ==> i == 0
    ensures OnlyLast(r.trace, ManagerStop)
    ensures LoopExec in r.trace || SessionStop in r.trace ==> ManagerStop in r.trace
  {
    var init := Init(p, managerStart);
    var started := if init.managerStartCalled then [ManagerStart] else [];
    if init.ret != 0 then
      MainOutcome(if init.ret == -EINTR then 0 else EXIT_FAILURE, started)
    else
      var exec := Exec(p.options, s);
      MainOutcome(if exec.ret != 0 then EXIT_FAILURE else 0, started + exec.trace)
  }

  /** The event-loop state run() hands to the loop when it enters it. */
  function LoopAtEntry(r: RunOutcome): Loop
  {
    Loop(r.users, false)
  }

  /**
    A capture-only run: the loop ends at the capture's completion, with the
    counter back at zero, whatever hotplug events came before it.
   */
  lemma CaptureOnlyEndsAtDone(o: Options, s: Session, events: seq<Event>)
    requires Run(o, s).ret == 0 && o.capture && !o.monitor
    requires NoInterrupt(events) && CountDone(events) >= 1
    ensures var d := Dispatch(LoopAtEntry(Run(o, s)), events);
      d.final.exitRequested && d.final.users == 0 && events[d.consumed - 1].Done?
  {
    DoneCountDecidesExit(LoopAtEntry(Run(o, s)), events);
  }

  /**
    Capture and monitoring together: one capture completion leaves the counter
    at one and the loop running; only an interrupt can end it then.
   */
  lemma MonitorOutlivesCapture(o: Options, s: Session, events: seq<Event>)
    requires Run(o, s).ret == 0 && o.capture && o.monitor
    requires NoInterrupt(events) && CountDone(events) == 1
    ensures var d := Dispatch(LoopAtEntry(Run(o, s)), events);
      !d.final.exitRequested && d.final.users == 1 && d.consumed == |events|
  {
    DoneCountDecidesExit(LoopAtEntry(Run(o, s)), events);
  }

  /**
    Monitoring without capture: hotplug events keep the counter at one and
    never end the loop.
   */
  lemma MonitorOnlyWaitsForInterrupt(o: Options, s: Session, events: seq<Event>)
    requires Run(o, s).ret == 0 && !o.capture && o.monitor
    requires forall i :: 0 <= i < |events| ==> IsHotplug(events[i])
    ensures var d := Dispatch(LoopAtEntry(Run(o, s)), events);
      !d.final.exitRequested && d.final.users == 1
  {
    HotplugKeepsCounter(LoopAtEntry(Run(o, s)), events);
  }

  /** The options of `cam --list`. */
  const ListOnly := Options(camera := false, capture := false, help := false, info := false,
                            list := true, listControls := false, listProperties := false, monitor := false)

  /** The options of `cam --camera <id> --capture=<n>`. */
  const CaptureOnly := Options(camera := true, capture := true, help := false, info := false,
                               list := false, listControls := false, listProperties := false, monitor := false)

  /**
    The counter as written is never initialised. With a leftover value of one,
    `cam --list` enters the event loop with nothing that will ever decrement
    the counter, and a capture-only run is still waiting after its capture has
    completed; starting from zero, the first returns at once and the second's
    loop ends at the completion.
   */
  lemma IndeterminateCounterEntersLoop(s: Session, hotplug: seq<Event>)
    requires s.valid && s.startResult == 0
    requires forall i :: 0 <= i < |hotplug| ==> IsHotplug(hotplug[i])
    ensures RunFrom(1, ListOnly, s).loopEntered
    ensures !Run(ListOnly, s).loopEntered && Run(ListOnly, s).ret == 0
    ensures !Dispatch(LoopAtEntry(RunFrom(1, CaptureOnly, s)), [Done] + hotplug).final.exitRequested
    ensures Dispatch(LoopAtEntry(Run(CaptureOnly, s)), [Done] + hotplug).final.exitRequested
  {
    var written := LoopAtEntry(RunFrom(1, CaptureOnly, s));
    assert written.users == 2;
    var events := [Done] + hotplug;
    assert events[1..] == hotplug;
    HotplugKeepsCounter(CaptureDone(written), hotplug);
  }
}
