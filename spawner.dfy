/** The spawner (spawner/spawner.rs): a builder that describes a program to run,
    the resource limits imposed on it, and the decision rules of the monitor
    that watches the running process. Threads, channels, sleeping and the clock
    are not modelled: the monitor is a state that each call moves one step, and
    whatever the operating system or the limit checker answers during that step
    is a parameter (`OsView`). */
module Spawner {
  import opened Wrappers
  import Errors

  /** `std::time::Duration`, in nanoseconds. */
  type Duration = nat

  const Millisecond: Duration := 1_000_000

  datatype TerminationReason =
    | WallClockTimeLimitExceeded
    | IdleTimeLimitExceeded
    | UserTimeLimitExceeded
    | WriteLimitExceeded
    | MemoryLimitExceeded
    | ProcessLimitExceeded
    | ActiveProcessLimitExceeded
    | ActiveNetworkConnectionLimitExceeded
    | TerminatedByRunner

  /** `IdleTimeLimit`, without its floating-point CPU load threshold. */
  datatype IdleTimeLimit = IdleTimeLimit(totalIdleTime: Duration)

  /** The limits imposed on a process group; `None` means no limit. */
  datatype ResourceLimits = ResourceLimits(
    idleTime: Option<IdleTimeLimit>,
    wallClockTime: Option<Duration>,
    totalUserTime: Option<Duration>,
    maxMemoryUsage: Option<nat>,
    totalBytesWritten: Option<nat>,
    totalProcessesCreated: Option<nat>,
    activeProcesses: Option<nat>,
    activeNetworkConnections: Option<nat>)

  /** No limit of any sort. */
  predicate Unlimited(l: ResourceLimits)
  {
    && l.idleTime.None? && l.wallClockTime.None? && l.totalUserTime.None?
    && l.maxMemoryUsage.None? && l.totalBytesWritten.None? && l.totalProcessesCreated.None?
    && l.activeProcesses.None? && l.activeNetworkConnections.None?
  }

  /** `ResourceLimits::default`. */
  function DefaultLimits(): (l: ResourceLimits)
    ensures Unlimited(l)
  {
    ResourceLimits(None, None, None, None, None, None, None, None)
  }

  /** The default limits are exactly the limits that limit nothing. */
  lemma DefaultLimitsUnlimited(l: ResourceLimits)
    ensures Unlimited(DefaultLimits())
    ensures Unlimited(l) <==> l == DefaultLimits()
  {
  }

  /** Which limits the operating system enforces by itself (`EnabledOsLimits`). */
  datatype EnabledOsLimits = EnabledOsLimits(memory: bool, activeProcess: bool)

  /** The `EnabledOsLimits` that `ProcessMonitor::new` builds: `set_os_limit` is
      asked for the memory limit, then for the active-process limit, only for the
      limits that are set; its answers (whether the system took the limit, or an
      error) are parameters, and the first error aborts. */
  function OsLimitsFor(limits: ResourceLimits, memoryAnswer: Errors.Result<bool>, activeAnswer: Errors.Result<bool>)
    : (r: Errors.Result<EnabledOsLimits>)
    ensures limits.maxMemoryUsage.Some? && memoryAnswer.Err? ==> r == Err(memoryAnswer.error)
    ensures limits.maxMemoryUsage.None? && limits.activeProcesses.None? ==> r == Ok(EnabledOsLimits(false, false))
    ensures r.Ok? ==> (r.value.memory <==> limits.maxMemoryUsage.Some? && memoryAnswer == Ok(true))
    ensures r.Ok? ==> (r.value.activeProcess <==> limits.activeProcesses.Some? && activeAnswer == Ok(true))
    ensures !(limits.maxMemoryUsage.Some? && memoryAnswer.Err?) && limits.activeProcesses.Some? && activeAnswer.Err? ==>
              r == Err(activeAnswer.error)
    ensures r.Err? ==> (limits.maxMemoryUsage.Some? && memoryAnswer.Err?) ||
                       (limits.activeProcesses.Some? && activeAnswer.Err?)
  {
    var memory :- if limits.maxMemoryUsage.Some? then memoryAnswer else Ok(false);
    var active :- if limits.activeProcesses.Some? then activeAnswer else Ok(false);
    Ok(EnabledOsLimits(memory, active))
  }

  /** A program without limits asks nothing of the operating system, so no answer
      of it matters. */
  lemma DefaultLimitsEnableNothing(memoryAnswer: Errors.Result<bool>, activeAnswer: Errors.Result<bool>)
    ensures OsLimitsFor(DefaultLimits(), memoryAnswer, activeAnswer) == Ok(EnabledOsLimits(false, false))
  {
  }

  // ---------------------------------------------------------------- the builder

  /** Handles into the process module (which is not part of this model), kept only
      by identity. */
  datatype ProcessInfo = ProcessInfo(id: nat)
  datatype Group = Group(id: nat)
  datatype Stdio = Stdio(id: nat)
  datatype OnTerminateAction = OnTerminateAction(id: nat)
  datatype MessageChannel = MessageChannel(id: nat)

  /** The fields of a `SpawnedProgram`, as a value. */
  datatype ProgramFields = ProgramFields(
    info: ProcessInfo,
    group: Option<Group>,
    stdio: Option<Stdio>,
    resourceLimits: Option<ResourceLimits>,
    monitorInterval: Duration,
    onTerminate: Option<OnTerminateAction>,
    waitForChildren: bool,
    msgChannel: MessageChannel)

  /** `SpawnedProgram`: a description of a program to spawn, set up by chained
      setters that each return the builder itself. */
  class SpawnedProgram {
    var info: ProcessInfo
    var group: Option<Group>
    var stdio: Option<Stdio>
    var resourceLimits: Option<ResourceLimits>
    var monitorInterval: Duration
    var onTerminate: Option<OnTerminateAction>
    var waitForChildren: bool
    var msgChannel: MessageChannel

    function Fields(): ProgramFields
      reads this
    {
      ProgramFields(info, group, stdio, resourceLimits, monitorInterval, onTerminate, waitForChildren, msgChannel)
    }

    /** `SpawnedProgram::new`: no group, stdio, limits or termination action, a
        monitor interval of one millisecond, not waiting for children, and a new
        channel (given here, since creating it is not modelled). */
    constructor (info: ProcessInfo, channel: MessageChannel)
      ensures Fields() == ProgramFields(info, None, None, None, Millisecond, None, false, channel)
    {
      this.info := info;
      group, stdio, resourceLimits := None, None, None;
      monitorInterval := Millisecond;
      onTerminate := None;
      waitForChildren := false;
      msgChannel := channel;
    }

    method SetGroup(group: Group) returns (self: SpawnedProgram)
      modifies this
      ensures self == this && Fields() == old(Fields()).(group := Some(group))
    {
      this.group := Some(group);
      self := this;
    }

    method SetResourceLimits(limits: ResourceLimits) returns (self: SpawnedProgram)
      modifies this
      ensures self == this && Fields() == old(Fields()).(resourceLimits := Some(limits))
    {
      resourceLimits := Some(limits);
      self := this;
    }

    method SetMonitorInterval(interval: Duration) returns (self: SpawnedProgram)
      modifies this
      ensures self == this && Fields() == old(Fields()).(monitorInterval := interval)
    {
      monitorInterval := interval;
      self := this;
    }

    method SetOnTerminate(action: OnTerminateAction) returns (self: SpawnedProgram)
      modifies this
      ensures self == this && Fields() == old(Fields()).(onTerminate := Some(action))
    {
      onTerminate := Some(action);
      self := this;
    }

    method SetStdio(stdio: Stdio) returns (self: SpawnedProgram)
      modifies this
      ensures self == this && Fields() == old(Fields()).(stdio := Some(stdio))
    {
      this.stdio := Some(stdio);
      self := this;
    }

    method SetWaitForChildren(wait: bool) returns (self: SpawnedProgram)
      modifies this
      ensures self == this && Fields() == old(Fields()).(waitForChildren := wait)
    {
      waitForChildren := wait;
      self := this;
    }

    method SetMsgChannel(channel: MessageChannel) returns (self: SpawnedProgram)
      modifies this
      ensures self == this && Fields() == old(Fields()).(msgChannel := channel)
    {
      msgChannel := channel;
      self := this;
    }

    /** The limits the monitor works with: the ones set, or the default. */
    function EffectiveLimits(): (l: ResourceLimits)
      reads this
      ensures resourceLimits.None? ==> Unlimited(l)
      ensures resourceLimits.Some? ==> l == resourceLimits.value
    {
      resourceLimits.GetOr(DefaultLimits())
    }
  }

  // ---------------------------------------------------------------- the monitor

  datatype RunnerMessage = Terminate | Suspend | Resume | StopTimeAccounting | ResumeTimeAccounting | ResetTime

  /** Opaque readings the process module reports (exit status, memory, I/O,
      timers, network); their contents are not part of this model. */
  datatype Reading = Reading(id: nat)

  datatype GroupPidCounters = GroupPidCounters(activeProcesses: nat)

  /** The operations the monitor asks of the process, the group or the limit
      checker that can fail. */
  datatype OsOp =
    | ExitStatusQuery | SuspendOp | ResumeOp | TerminateOp | PidCountersQuery
    | LimitCheckOp | MemoryQuery | IoQuery | TimersQuery | NetworkQuery

  /** The answers of the process, its group and the limit checker during one step
      of the monitor; an operation in `failures` fails with the error given. */
  datatype OsView = OsView(
    exitStatus: Option<Reading>,
    pidCounters: Option<GroupPidCounters>,
    verdict: Option<TerminationReason>,
    memory: Option<Reading>,
    io: Option<Reading>,
    timers: Option<Reading>,
    network: Option<Reading>,
    failures: map<OsOp, Errors.Error>)

  /** The outcome of asking `op`, which answers `v` when it does not fail. */
  function Ask<T>(os: OsView, op: OsOp, v: T): (r: Errors.Result<T>)
    ensures r.Err? <==> op in os.failures
    ensures r.Ok? ==> r.value == v
    ensures r.Err? ==> r.error == os.failures[op]
  {
    if op in os.failures then Err(os.failures[op]) else Ok(v)
  }

  /** The actions with an effect that the monitor has taken, in order. */
  datatype OsCall =
    | GroupTerminated | ProcessSuspended | ProcessResumed | LimitsChecked
    | TimeReset | TimeAccountingStopped | TimeAccountingResumed

  /** The monitor's state: the recorded termination reason, the messages waiting
      in the channel, and the actions taken so far. */
  datatype Monitor = Monitor(termReason: Option<TerminationReason>, pending: seq<RunnerMessage>, calls: seq<OsCall>)

  /** Summary information about a finished process (`Report`). */
  datatype Report = Report(
    wallClockTime: Duration,
    memory: Option<Reading>,
    io: Option<Reading>,
    timers: Option<Reading>,
    pidCounters: Option<GroupPidCounters>,
    network: Option<Reading>,
    exitStatus: Reading,
    terminationReason: Option<TerminationReason>)

  /** The actions that handling one message takes, or the error it stops at.
      Suspending and resuming ask for the exit status first and do nothing once
      the process has exited. */
  function MessageEffect(msg: RunnerMessage, os: OsView): Errors.Result<seq<OsCall>>
  {
    match msg
    case Terminate => Ask(os, TerminateOp, [GroupTerminated])
    case Suspend =>
      var status :- Ask(os, ExitStatusQuery, os.exitStatus);
      if status.None? then Ask(os, SuspendOp, [ProcessSuspended]) else Ok([])
    case Resume =>
      var status :- Ask(os, ExitStatusQuery, os.exitStatus);
      if status.None? then Ask(os, ResumeOp, [ProcessResumed]) else Ok([])
    case ResetTime => Ok([TimeReset])
    case StopTimeAccounting => Ok([TimeAccountingStopped])
    case ResumeTimeAccounting => Ok([TimeAccountingResumed])
  }

  /** Handling one message, already taken off the channel. */
  function AfterMessage(s: Monitor, msg: RunnerMessage, effect: seq<OsCall>): Monitor
  {
    s.(calls := s.calls + effect,
       termReason := if msg.Terminate? then Some(TerminatedByRunner) else s.termReason)
  }

  /** What `handle_messages` does, taking at most `n` messages: each message is
      taken off the channel and handled, and the first error stops the rest. */
  function HandleN(s: Monitor, os: OsView, n: nat): (Monitor, Errors.Result<()>)
    decreases n
  {
    if n == 0 || |s.pending| == 0 then (s, Ok(()))
    else
      var msg := s.pending[0];
      var s1 := s.(pending := s.pending[1..]);
      match MessageEffect(msg, os)
      case Err(e) => (s1, Err(e))
      case Ok(effect) => HandleN(AfterMessage(s1, msg, effect), os, n - 1)
  }

  /** The most messages one `handle_messages` call takes. */
  const MessagesPerCall := 10

  function Min(a: nat, b: nat): nat
  {
    if a <= b then a else b
  }

  /** The actions that handling `msgs` in order takes, or the first error. */
  function Effects(msgs: seq<RunnerMessage>, os: OsView): Errors.Result<seq<OsCall>>
  {
    if |msgs| == 0 then Ok([])
    else match MessageEffect(msgs[0], os)
      case Err(e) => Err(e)
      case Ok(effect) => match Effects(msgs[1..], os)
        case Err(e) => Err(e)
        case Ok(rest) => Ok(effect + rest)
  }

  /** The termination reason after handling `msgs`: the runner's, once any of them
      asked to terminate. */
  function ReasonAfter(reason: Option<TerminationReason>, msgs: seq<RunnerMessage>): Option<TerminationReason>
  {
    if Terminate in msgs then Some(TerminatedByRunner) else reason
  }

  lemma EffectsCons(msgs: seq<RunnerMessage>, k: nat, os: OsView)
    requires k < |msgs|
    ensures Effects(msgs[..k + 1], os) == match MessageEffect(msgs[0], os)
                                          case Err(e) => Err(e)
                                          case Ok(effect) => match Effects(msgs[1..][..k], os)
                                            case Err(e) => Err(e)
                                            case Ok(rest) => Ok(effect + rest)
  {
    assert msgs[..k + 1][0] == msgs[0];
    assert msgs[..k + 1][1..] == msgs[1..][..k];
  }

  /** A call that takes at most `n` messages and succeeds has taken the first
      `min(n, pending)` messages off the channel, taken exactly their actions in
      arrival order, and recorded `TerminatedByRunner` if one of them was
      `Terminate`. */
  lemma {:induction false} HandleNOk(s: Monitor, os: OsView, n: nat)
    requires HandleN(s, os, n).1.Ok?
    ensures var s2 := HandleN(s, os, n).0;
            var handled := s.pending[..Min(n, |s.pending|)];
            && s2.pending == s.pending[|handled|..]
            && Effects(handled, os).Ok?
            && s2.calls == s.calls + Effects(handled, os).value
            && s2.termReason == ReasonAfter(s.termReason, handled)
    decreases n
  {
    var s2 := HandleN(s, os, n).0;
    if n == 0 || |s.pending| == 0 {
      assert s.pending[..0] == [];
      assert s2.calls == s.calls + [];
    } else {
      var msg := s.pending[0];
      var effect := MessageEffect(msg, os).value;
      var t := AfterMessage(s.(pending := s.pending[1..]), msg, effect);
      HandleNOk(t, os, n - 1);
      var k := Min(n, |s.pending|);
      assert Min(n - 1, |t.pending|) == k - 1;
      assert t.pending[k - 1..] == s.pending[k..];
      EffectsCons(s.pending, k - 1, os);
      assert s.pending[1..][..k - 1] == t.pending[..k - 1];
      assert s.pending[..k] == [msg] + t.pending[..k - 1];
      assert Terminate in s.pending[..k] <==> msg.Terminate? || Terminate in t.pending[..k - 1];
    }
  }

  /** A call that takes at most `n` messages and fails stopped at the first
      message whose handling failed, with that message's error, after taking it
      and the ones before it off the channel and taking the actions of those
      before it. */
  lemma {:induction false} HandleNErr(s: Monitor, os: OsView, n: nat)
    requires HandleN(s, os, n).1.Err?
    ensures exists j :: 0 <= j < Min(n, |s.pending|) && StoppedAt(s, HandleN(s, os, n), os, j)
    decreases n
  {
    var (s2, r) := HandleN(s, os, n);
    var msg := s.pending[0];
    if MessageEffect(msg, os).Err? {
      assert s.pending[..0] == [];
      assert s2.calls == s.calls + [];
      assert s2.pending == s.pending[0 + 1..];
      assert StoppedAt(s, HandleN(s, os, n), os, 0);
    } else {
      var effect := MessageEffect(msg, os).value;
      var t := AfterMessage(s.(pending := s.pending[1..]), msg, effect);
      HandleNErr(t, os, n - 1);
      assert HandleN(t, os, n - 1) == (s2, r);
      var j :| 0 <= j < Min(n - 1, |t.pending|) && StoppedAt(t, (s2, r), os, j);
      StoppedLater(s, os, (s2, r), j);
    }
  }

  /** A stop at message `j` after the first message was handled is a stop at
      message `j + 1` of the whole channel. */
  lemma StoppedLater(s: Monitor, os: OsView, out: (Monitor, Errors.Result<()>), j: nat)
    requires |s.pending| > 0 && MessageEffect(s.pending[0], os).Ok?
    requires StoppedAt(AfterMessage(s.(pending := s.pending[1..]), s.pending[0], MessageEffect(s.pending[0], os).value), out, os, j)
    ensures StoppedAt(s, out, os, j + 1)
  {
    var msg := s.pending[0];
    var t := AfterMessage(s.(pending := s.pending[1..]), msg, MessageEffect(msg, os).value);
    assert t.pending[j + 1..] == s.pending[j + 2..];
    assert MessageEffect(s.pending[j + 1], os) == Err(out.1.error);
    EffectsCons(s.pending, j, os);
    assert s.pending[1..][..j] == t.pending[..j];
    assert s.pending[..j + 1] == [msg] + t.pending[..j];
    assert Terminate in s.pending[..j + 1] <==> msg.Terminate? || Terminate in t.pending[..j];
  }

  /** The outcome `out` of handling the messages of `s` is a stop at message `j`. */
  predicate StoppedAt(s: Monitor, out: (Monitor, Errors.Result<()>), os: OsView, j: nat)
  {
    var (s2, r) := out;
    && r.Err?
    && j < |s.pending|
    && s2.pending == s.pending[j + 1..]
    && MessageEffect(s.pending[j], os) == Err(r.error)
    && Effects(s.pending[..j], os).Ok?
    && s2.calls == s.calls + Effects(s.pending[..j], os).value
    && s2.termReason == ReasonAfter(s.termReason, s.pending[..j])
  }

  /** `Suspend` and `Resume` do nothing once the process has exited, while
      `Terminate` always terminates the group; no message changes the recorded
      reason but `Terminate`. */
  lemma MessageEffects(msg: RunnerMessage, os: OsView)
    ensures os.exitStatus.Some? && (msg.Suspend? || msg.Resume?) && ExitStatusQuery !in os.failures ==>
              MessageEffect(msg, os) == Ok([])
    ensures os.exitStatus.None? && msg.Suspend? && ExitStatusQuery !in os.failures && SuspendOp !in os.failures ==>
              MessageEffect(msg, os) == Ok([ProcessSuspended])
    ensures os.exitStatus.None? && msg.Resume? && ExitStatusQuery !in os.failures && ResumeOp !in os.failures ==>
              MessageEffect(msg, os) == Ok([ProcessResumed])
    ensures msg.Terminate? ==> MessageEffect(msg, os) == Ask(os, TerminateOp, [GroupTerminated])
    ensures forall s: Monitor, effect :: !msg.Terminate? ==> AfterMessage(s, msg, effect).termReason == s.termReason
  {
  }

  /** The readings a report gathers after the exit status and pid counters, the
      first failing one aborting. */
  function Readings(os: OsView): Errors.Result<(Option<Reading>, Option<Reading>, Option<Reading>, Option<Reading>)>
  {
    var memory :- Ask(os, MemoryQuery, os.memory);
    var io :- Ask(os, IoQuery, os.io);
    var timers :- Ask(os, TimersQuery, os.timers);
    var network :- Ask(os, NetworkQuery, os.network);
    Ok((memory, io, timers, network))
  }

  /** Whether a report is due: never before the process has exited, and, when
      waiting for children, not while the group reports active processes. */
  function ReportDue(waitForChildren: bool, status: Option<Reading>, pidCounters: Option<GroupPidCounters>): bool
  {
    status.Some? && !(waitForChildren && pidCounters.Some? && pidCounters.value.activeProcesses != 0)
  }

  /** What `get_report` does, with `elapsed` the time since the process was
      created. */
  function ReportOf(s: Monitor, waitForChildren: bool, os: OsView, elapsed: Duration): (Monitor, Errors.Result<Option<Report>>)
  {
    var asked: Errors.Result<Option<Reading>> := Ask(os, ExitStatusQuery, os.exitStatus);
    match asked
    case Err(e) => (s, Err(e))
    case Ok(None) => (s, Ok(None))
    case Ok(Some(status)) =>
      match Ask(os, PidCountersQuery, os.pidCounters)
      case Err(e) => (s, Err(e))
      case Ok(pidCounters) =>
        if !ReportDue(waitForChildren, Some(status), pidCounters) then (s, Ok(None))
        else
          var checked: (Monitor, Errors.Result<()>) :=
            if s.termReason.Some? then (s, Ok(()))
            else match Ask(os, LimitCheckOp, os.verdict)
              case Err(e) => (s, Err(e))
              case Ok(v) => (s.(termReason := v, calls := s.calls + [LimitsChecked]), Ok(()));
          var s1 := checked.0;
          if checked.1.Err? then (s1, Err(checked.1.error))
          else match Readings(os)
            case Err(e) => (s1, Err(e))
            case Ok((memory, io, timers, network)) =>
              (s1, Ok(Some(Report(elapsed, memory, io, timers, pidCounters, network, status, s1.termReason))))
  }

  /** `get_report` yields no report exactly while the process has not exited, or
      while children it waits for are still active. */
  lemma ReportNoneCases(s: Monitor, waitForChildren: bool, os: OsView, elapsed: Duration)
    requires ExitStatusQuery !in os.failures && PidCountersQuery !in os.failures
    ensures var (s2, r) := ReportOf(s, waitForChildren, os, elapsed);
            (r == Ok(None) <==> !ReportDue(waitForChildren, os.exitStatus, os.pidCounters))
            && (r == Ok(None) ==> s2 == s)
  {
  }

  /** A termination reason recorded before `get_report` is what the report
      carries: the limit checker is not consulted and nothing else happens. With
      no reason recorded, the checker's verdict is recorded and reported. The
      report carries the elapsed time, the exit status and the pid counters read,
      and the channel is never touched. */
  lemma ReportReason(s: Monitor, waitForChildren: bool, os: OsView, elapsed: Duration)
    ensures var (s2, r) := ReportOf(s, waitForChildren, os, elapsed);
            && s2.pending == s.pending
            && (s.termReason.Some? ==> s2 == s)
            && (r.Ok? && r.value.Some? ==>
                  var rep := r.value.value;
                  && rep.terminationReason == s2.termReason
                  && rep.terminationReason == (if s.termReason.Some? then s.termReason else os.verdict)
                  && s2.calls == (if s.termReason.Some? then s.calls else s.calls + [LimitsChecked])
                  && rep.wallClockTime == elapsed
                  && Some(rep.exitStatus) == os.exitStatus
                  && rep.pidCounters == os.pidCounters)
  {
  }

  /** The limit check that each round of `start_monitoring` makes: on a verdict
      the group is terminated and the verdict recorded. */
  function LimitStep(s: Monitor, os: OsView): (Monitor, Errors.Result<()>)
  {
    var verdict: Errors.Result<Option<TerminationReason>> := Ask(os, LimitCheckOp, os.verdict);
    match verdict
    case Err(e) => (s, Err(e))
    case Ok(None) => (s.(calls := s.calls + [LimitsChecked]), Ok(()))
    case Ok(Some(tr)) =>
      var checked := s.(calls := s.calls + [LimitsChecked]);
      if TerminateOp in os.failures then (checked, Err(os.failures[TerminateOp]))
      else (checked.(termReason := Some(tr), calls := checked.calls + [GroupTerminated]), Ok(()))
  }

  /** One round of `start_monitoring`: a report if one is due; otherwise the limit
      check followed by `handle_messages`. */
  function TickOf(s: Monitor, waitForChildren: bool, os: OsView, elapsed: Duration): (Monitor, Errors.Result<Option<Report>>)
  {
    var (s1, r) := ReportOf(s, waitForChildren, os, elapsed);
    if r.Err? || r.value.Some? then (s1, r)
    else
      var (s2, c) := LimitStep(s1, os);
      if c.Err? then (s2, Err(c.error))
      else
        var (s3, h) := HandleN(s2, os, MessagesPerCall);
        (s3, if h.Err? then Err(h.error) else Ok(None))
  }

  /** A round without a report leaves as the recorded reason the verdict of the
      limit check, unless a message handled in that round asked to terminate,
      and otherwise the reason recorded before. */
  lemma TickReason(s: Monitor, waitForChildren: bool, os: OsView, elapsed: Duration)
    ensures var (s2, r) := TickOf(s, waitForChildren, os, elapsed);
            var handled := s.pending[..Min(MessagesPerCall, |s.pending|)];
            r == Ok(None) ==>
              && s2.pending == s.pending[|handled|..]
              && s2.termReason == ReasonAfter(if os.verdict.Some? then os.verdict else s.termReason, handled)
  {
    var (s1, r1) := ReportOf(s, waitForChildren, os, elapsed);
    var (s2, r) := TickOf(s, waitForChildren, os, elapsed);
    if r == Ok(None) {
      assert r1 == Ok(None);
      assert s1 == s;
      var (t, c) := LimitStep(s1, os);
      assert c.Ok?;
      assert t.pending == s.pending;
      assert t.termReason == if os.verdict.Some? then os.verdict else s.termReason;
      HandleNOk(t, os, MessagesPerCall);
    }
  }

  /** `ProcessMonitor`: the monitor of one spawned program. */
  class ProcessMonitor {
    var termReason: Option<TerminationReason>
    var pending: seq<RunnerMessage>
    var calls: seq<OsCall>
    const waitForChildren: bool

    function State(): Monitor
      reads this
    {
      Monitor(termReason, pending, calls)
    }

    /** The monitor of a freshly spawned process: no reason recorded yet, and the
        messages already sent waiting in the channel. */
    constructor (waitForChildren: bool, pending: seq<RunnerMessage>)
      ensures State() == Monitor(None, pending, []) && this.waitForChildren == waitForChildren
    {
      this.waitForChildren := waitForChildren;
      termReason := None;
      this.pending := pending;
      calls := [];
    }

    /** `handle_messages`: take at most ten messages off the channel and act on
        each; the first failing action ends the call with its error. */
    method HandleMessages(os: OsView) returns (r: Errors.Result<()>)
      modifies this
      ensures (State(), r) == HandleN(old(State()), os, MessagesPerCall)
    {
      for i := 0 to MessagesPerCall
        invariant HandleN(old(State()), os, MessagesPerCall) == HandleN(State(), os, MessagesPerCall - i)
      {
        if |pending| == 0 {
          break;
        }
        ghost var s1 := State().(pending := pending[1..]);
        assert HandleN(State(), os, MessagesPerCall - i) ==
          match MessageEffect(pending[0], os)
          case Err(e) => (s1, Err(e))
          case Ok(effect) => HandleN(AfterMessage(s1, pending[0], effect), os, MessagesPerCall - i - 1);
        var msg := pending[0];
        pending := pending[1..];
        match msg
        case Terminate =>
          if TerminateOp in os.failures {
            return Err(os.failures[TerminateOp]);
          }
          calls := calls + [GroupTerminated];
          termReason := Some(TerminatedByRunner);
        case Suspend =>
          var status := Ask(os, ExitStatusQuery, os.exitStatus);
          if status.Err? {
            return Err(status.error);
          }
          if status.value.None? {
            if SuspendOp in os.failures {
              return Err(os.failures[SuspendOp]);
            }
            calls := calls + [ProcessSuspended];
          } else {
            assert State() == AfterMessage(s1, msg, []);
          }
        case Resume =>
          var status := Ask(os, ExitStatusQuery, os.exitStatus);
          if status.Err? {
            return Err(status.error);
          }
          if status.value.None? {
            if ResumeOp in os.failures {
              return Err(os.failures[ResumeOp]);
            }
            calls := calls + [ProcessResumed];
          } else {
            assert State() == AfterMessage(s1, msg, []);
          }
        case ResetTime => calls := calls + [TimeReset];
        case StopTimeAccounting => calls := calls + [TimeAccountingStopped];
        case ResumeTimeAccounting => calls := calls + [TimeAccountingResumed];
      }
      r := Ok(());
    }

    /** `get_report`, with `elapsed` the time since the process was created. */
    method GetReport(os: OsView, elapsed: Duration) returns (r: Errors.Result<Option<Report>>)
      modifies this
      ensures (State(), r) == ReportOf(old(State()), waitForChildren, os, elapsed)
    {
      var status := Ask(os, ExitStatusQuery, os.exitStatus);
      if status.Err? {
        return Err(status.error);
      }
      if status.value.None? {
        return Ok(None);
      }
      var exitStatus := status.value.value;
      var pidCounters :- Ask(os, PidCountersQuery, os.pidCounters);
      if waitForChildren && pidCounters.Some? && pidCounters.value.activeProcesses != 0 {
        return Ok(None);
      }
      if termReason.None? {
        var verdict :- Ask(os, LimitCheckOp, os.verdict);
        calls := calls + [LimitsChecked];
        termReason := verdict;
      }
      var memory :- Ask(os, MemoryQuery, os.memory);
      var io :- Ask(os, IoQuery, os.io);
      var timers :- Ask(os, TimersQuery, os.timers);
      var network :- Ask(os, NetworkQuery, os.network);
      r := Ok(Some(Report(elapsed, memory, io, timers, pidCounters, network, exitStatus, termReason)));
    }

    /** The limit check of a `start_monitoring` round. */
    method CheckLimits(os: OsView) returns (r: Errors.Result<()>)
      modifies this
      ensures (State(), r) == LimitStep(old(State()), os)
    {
      var verdict :- Ask(os, LimitCheckOp, os.verdict);
      calls := calls + [LimitsChecked];
      if verdict.Some? {
        if TerminateOp in os.failures {
          return Err(os.failures[TerminateOp]);
        }
        calls := calls + [GroupTerminated];
        termReason := verdict;
      }
      r := Ok(());
    }

    /** One round of the `start_monitoring` loop, without the sleep that ends it. */
    method Tick(os: OsView, elapsed: Duration) returns (r: Errors.Result<Option<Report>>)
      modifies this
      ensures (State(), r) == TickOf(old(State()), waitForChildren, os, elapsed)
    {
      var report :- GetReport(os, elapsed);
      if report.Some? {
        return Ok(report);
      }
      var checked := CheckLimits(os);
      if checked.Err? {
        return Err(checked.error);
      }
      var handled := HandleMessages(os);
      if handled.Err? {
        return Err(handled.error);
      }
      r := Ok(None);
    }
  }

  // ---------------------------------------------------------------- waiting

  /** How a runner thread ended: with the monitor's result, or by panicking. */
  datatype JoinOutcome = Finished(result: Errors.Result<Report>) | Panicked

  const PanicMessage := "Runner thread panicked"

  function JoinResult(j: JoinOutcome): Errors.Result<Report>
  {
    match j
    case Finished(result) => result
    case Panicked => Err(Errors.FromStr(PanicMessage))
  }

  /** `Spawner::wait`: one result per runner, in spawn order; a runner whose thread
      panicked gives an error that says so. */
  function Wait(joins: seq<JoinOutcome>): (r: seq<Errors.Result<Report>>)
    ensures |r| == |joins|
    ensures forall i :: 0 <= i < |joins| ==> joins[i].Finished? ==> r[i] == joins[i].result
    ensures forall i :: 0 <= i < |joins| ==> joins[i].Panicked? ==>
              r[i].Err? && Errors.Display(r[i].error) == PanicMessage
  {
    seq(|joins|, i requires 0 <= i < |joins| => JoinResult(joins[i]))
  }

  /** Waiting on runners spawned in two batches gives the results of the first
      batch, then those of the second. */
  lemma WaitAppend(a: seq<JoinOutcome>, b: seq<JoinOutcome>)
    ensures Wait(a + b) == Wait(a) + Wait(b)
  {
  }
}
