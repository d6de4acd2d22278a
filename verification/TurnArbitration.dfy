/** Turn arbitration of app/core/turns.py together with app/proactive/lifecycle.py, as wired in app/main.py.

    The system is made of `accept` calls, one per user turn; of run tasks, one per started user turn
    (`_run_user`) and one per proactive start (`ProactiveLifecycle._run` around `run_proactive`); of
    `cancel`, `shutdown` and the lifecycle's calls.  An action is the code between two suspensions.
    Publishing does not suspend, and neither lock is ever held across a suspension except the
    coordination lock while `accept` waits for its run to start.  The output lock is not modelled:
    the results show that runs exclude each other without it. */
module TurnArbitration {
  import opened Options

  type Turn = nat

  datatype Status = Accepted | Streaming | Cancelled | Completed | Failed

  predicate Terminal(status: Status) {
    status.Cancelled? || status.Completed? || status.Failed?
  }

  datatype Origin = User | Proactive

  datatype Kind = IsAccepted | FromPipeline | IsCancelled | IsFailed | IsCompleted
  datatype Event = Event(kind: Kind, origin: Origin, turn: Turn)

  datatype RunPhase = Created | Running | Done

  /** A run task: its turn's token, and how often each side has called `Task.cancel` on it. */
  datatype Run = Run(phase: RunPhase, token: bool, byService: nat, byLifecycle: nat)

  datatype AcceptPoint =
    | WaitingForLock
    | JoiningProactive(task: Option<Turn>)
    | Signalling
    | JoiningOld(run: Turn)
    | Registering
    | Observing
    | AwaitingStart
    | CancellingOwn
    | JoiningOwn
    | Returned

  datatype Accept = Accept(point: AcceptPoint, session: nat)

  /** `_ActiveTurn`; its token and task are those of the run of `turn`. */
  datatype Active = Active(turn: Turn, origin: Origin, hasTask: bool, cancellationStarted: bool)

  datatype Service = Service(
    states: map<Turn, Status>, sessionTurn: map<nat, Turn>, active: Option<Active>,
    finalizing: set<Turn>,      // completed turns whose post-commit task has not published yet
    closed: bool)

  datatype Shutdown =
    | NotStarted | DrainingAccepts(waitFor: set<Turn>) | DrainingRuns(waitFor: set<Turn>)
    | DrainingPosts(waitFor: set<Turn>) | PipelineClosed

  datatype Control = Control(acceptLock: Option<Turn>, coordinationLock: Option<Turn>, shutdown: Shutdown)

  datatype Lifecycle = Lifecycle(users: set<Turn>, task: Option<Turn>, cancellationStarted: bool, closed: bool)

  datatype State = State(
    service: Service, control: Control, lifecycle: Lifecycle,
    runs: map<Turn, Run>, accepts: map<Turn, Accept>, log: seq<Event>)

  const LOCAL_SESSION: nat := 0

  const INITIAL: State := State(
    Service(map[], map[], None, {}, false), Control(None, None, NotStarted), Lifecycle({}, None, false, false),
    map[], map[], [])

  function OriginOf(s: State, t: Turn): Origin {
    if t in s.accepts then User else Proactive
  }

  function SessionOf(s: State, t: Turn): nat {
    if t in s.accepts then s.accepts[t].session else LOCAL_SESSION
  }

  predicate RunIs(s: State, t: Turn, phase: RunPhase) {
    t in s.runs && s.runs[t].phase == phase
  }

  predicate Live(s: State, t: Turn) {
    t in s.runs && s.runs[t].phase != Done
  }

  predicate IsActive(s: State, t: Turn) {
    s.service.active.Some? && s.service.active.value.turn == t
  }

  predicate AcceptIs(s: State, t: Turn, point: AcceptPoint) {
    t in s.accepts && s.accepts[t].point == point
  }

  // ----- Helpers of TurnService -----

  function Publish(s: State, kind: Kind, t: Turn): State {
    s.(log := s.log + [Event(kind, OriginOf(s, t), t)])
  }

  /** `_set_status` */
  function SetStatus(s: State, t: Turn, status: Status): State {
    s.(service := s.service.(states := s.service.states[t := status]))
  }

  /** `_clear_active_locked` */
  function ClearActive(s: State, t: Turn): State {
    var session := SessionOf(s, t);
    var drop := t in s.service.states && session in s.service.sessionTurn && s.service.sessionTurn[session] == t;
    s.(service := s.service.(
         active := if IsActive(s, t) then None else s.service.active,
         sessionTurn := if drop then s.service.sessionTurn - {session} else s.service.sessionTurn))
  }

  function MoveTo(s: State, t: Turn, point: AcceptPoint): State
    requires t in s.accepts
  {
    s.(accepts := s.accepts[t := s.accepts[t].(point := point)])
  }

  /** The accept call releases its user priority (`end_user_turn`) and returns or raises. */
  function Return(s: State, t: Turn): State
    requires t in s.accepts
  {
    MoveTo(s.(lifecycle := s.lifecycle.(users := s.lifecycle.users - {t})), t, Returned)
  }

  function ReleaseAcceptLock(s: State): State {
    s.(control := s.control.(acceptLock := None))
  }

  /** A turn without a running task is cancelled on the spot, and the event is published at once. */
  function CancelImmediately(s: State, t: Turn): State {
    Publish(ClearActive(SetStatus(s, t, Cancelled), t), IsCancelled, t)
  }

  /** `_signal_active_cancellation_locked` for an active turn with a running task. */
  function SignalTask(s: State, active: Active): State
    requires active.turn in s.runs
  {
    if active.cancellationStarted then s
    else
      var run := s.runs[active.turn];
      s.(service := s.service.(active := Some(active.(cancellationStarted := true))),
         runs := s.runs[active.turn :=
                          if run.token then run else run.(token := true, byService := run.byService + 1)])
  }

  /** `_signal_active_cancellation_locked`, with the immediate event published by its caller. */
  function SignalActive(s: State): State {
    match s.service.active
    case None => s
    case Some(active) =>
      if active.turn !in s.service.states || Terminal(s.service.states[active.turn]) then ClearActive(s, active.turn)
      else if !active.hasTask || !Live(s, active.turn) then CancelImmediately(s, active.turn)
      else SignalTask(s, active)
  }

  /** The task the caller has to join after `SignalActive`. */
  function TaskToJoin(s: State): Option<Turn> {
    match s.service.active
    case None => None
    case Some(active) =>
      if active.turn in s.service.states && !Terminal(s.service.states[active.turn])
         && active.hasTask && Live(s, active.turn)
      then Some(active.turn) else None
  }

  /** `_cancel_registered_turn` */
  function CancelRegistered(s: State, t: Turn): State {
    if t !in s.service.states || Terminal(s.service.states[t]) then s
    else if IsActive(s, t) then SignalActive(s)
    else CancelImmediately(s, t)
  }

  // ----- Helpers of ProactiveLifecycle -----

  /** `_signal_cancel_locked` */
  function SignalLifecycle(s: State): State {
    if s.lifecycle.cancellationStarted || s.lifecycle.task.None? || s.lifecycle.task.value !in s.runs then s
    else
      var task := s.lifecycle.task.value;
      var run := s.runs[task];
      if run.phase == Done then s.(runs := s.runs[task := run.(token := true)])
      else s.(runs := s.runs[task := run.(token := true, byLifecycle := run.byLifecycle + 1)],
              lifecycle := s.lifecycle.(cancellationStarted := true))
  }

  /** The bookkeeping `_run` and `_join_and_clear` drop when `t` is still the lifecycle's task. */
  function ClearTask(s: State, t: Turn): State {
    if s.lifecycle.task == Some(t) then s.(lifecycle := s.lifecycle.(task := None, cancellationStarted := false)) else s
  }

  // ----- accept -----

  function AfterCallAccept(s: State, t: Turn, session: nat): State {
    s.(accepts := s.accepts[t := Accept(WaitingForLock, session)])
  }

  predicate CanAcquire(s: State, t: Turn) {
    AcceptIs(s, t, WaitingForLock) && s.control.acceptLock.None?
  }

  /** Takes the accept lock and enters `begin_user_turn` up to its join. */
  function AfterAcquire(s: State, t: Turn): State
    requires CanAcquire(s, t)
  {
    var locked := s.(control := s.control.(acceptLock := Some(t)),
                     lifecycle := s.lifecycle.(users := s.lifecycle.users + {t}));
    MoveTo(SignalLifecycle(locked), t, JoiningProactive(s.lifecycle.task))
  }

  predicate CanLeaveProactiveJoin(s: State, t: Turn) {
    && t in s.accepts && s.accepts[t].point.JoiningProactive?
    && (s.accepts[t].point.task.None? || RunIs(s, s.accepts[t].point.task.value, Done))
  }

  function AfterProactiveJoin(s: State, t: Turn): State
    requires CanLeaveProactiveJoin(s, t)
  {
    var cleared := if s.accepts[t].point.task.Some? then ClearTask(s, s.accepts[t].point.task.value) else s;
    MoveTo(cleared, t, Signalling)
  }

  predicate CanSignalOld(s: State, t: Turn) {
    AcceptIs(s, t, Signalling) && s.control.coordinationLock.None?
  }

  function AfterSignalOld(s: State, t: Turn): State
    requires CanSignalOld(s, t)
  {
    MoveTo(SignalActive(s), t, if TaskToJoin(s).Some? then JoiningOld(TaskToJoin(s).value) else Registering)
  }

  predicate CanLeaveOldJoin(s: State, t: Turn) {
    t in s.accepts && s.accepts[t].point.JoiningOld? && RunIs(s, s.accepts[t].point.run, Done)
  }

  predicate CanRegister(s: State, t: Turn) {
    AcceptIs(s, t, Registering) && s.control.coordinationLock.None?
  }

  /** A closed service raises; otherwise the turn becomes the active one and turn.accepted is published. */
  function AfterRegister(s: State, t: Turn): State
    requires CanRegister(s, t)
  {
    if s.service.closed then Return(ReleaseAcceptLock(s), t)
    else
      var registered := s.(service := s.service.(
        states := s.service.states[t := Accepted],
        sessionTurn := s.service.sessionTurn[SessionOf(s, t) := t],
        active := Some(Active(t, User, false, false))));
      MoveTo(ReleaseAcceptLock(Publish(registered, IsAccepted, t)), t, Observing)
  }

  predicate CanStart(s: State, t: Turn) {
    AcceptIs(s, t, Observing) && s.control.coordinationLock.None?
  }

  predicate MayRun(s: State, t: Turn) {
    !s.service.closed && t in s.service.states && s.service.states[t] == Accepted && IsActive(s, t)
  }

  /** Creates the run and waits for it under the coordination lock, or gives up on a turn that has lost out. */
  function AfterStart(s: State, t: Turn): State
    requires CanStart(s, t)
  {
    if MayRun(s, t) then
      MoveTo(s.(runs := s.runs[t := Run(Created, false, 0, 0)],
                service := s.service.(active := Some(s.service.active.value.(hasTask := true))),
                control := s.control.(coordinationLock := Some(t))),
             t, AwaitingStart)
    else Return(ClearActive(s, t), t)
  }

  predicate CanFinishStart(s: State, t: Turn) {
    AcceptIs(s, t, AwaitingStart) && t in s.runs && s.runs[t].phase != Created
  }

  function AfterFinishStart(s: State, t: Turn): State
    requires CanFinishStart(s, t)
  {
    MoveTo(s.(control := s.control.(coordinationLock := None)), t, Returned)
  }

  /** An external cancellation of the accept call reaches every suspension; one that waits for its run is
      resumed only after the run's first step, because the event loop runs ready tasks in order. */
  predicate CanAbort(s: State, t: Turn) {
    && t in s.accepts
    && match s.accepts[t].point
       case AwaitingStart => CanFinishStart(s, t)
       case CancellingOwn => false
       case JoiningOwn => false
       case Returned => false
       case _ => true
  }

  function AfterAbort(s: State, t: Turn): State
    requires CanAbort(s, t)
  {
    match s.accepts[t].point
    case WaitingForLock => MoveTo(s, t, Returned)
    case Observing => MoveTo(s, t, CancellingOwn)
    case AwaitingStart => MoveTo(s.(control := s.control.(coordinationLock := None)), t, CancellingOwn)
    case _ => Return(ReleaseAcceptLock(s), t)
  }

  predicate CanCancelOwn(s: State, t: Turn) {
    AcceptIs(s, t, CancellingOwn) && s.control.coordinationLock.None?
  }

  function AfterCancelOwn(s: State, t: Turn): State
    requires CanCancelOwn(s, t)
  {
    if IsActive(s, t) && TaskToJoin(s).Some? then MoveTo(CancelRegistered(s, t), t, JoiningOwn)
    else Return(CancelRegistered(s, t), t)
  }

  predicate CanLeaveOwnJoin(s: State, t: Turn) {
    AcceptIs(s, t, JoiningOwn) && RunIs(s, t, Done)
  }

  // ----- Run tasks -----

  predicate CanRunUser(s: State, t: Turn) {
    t in s.accepts && RunIs(s, t, Created)
  }

  function AfterRunUser(s: State, t: Turn): State
    requires CanRunUser(s, t)
  {
    SetStatus(s.(runs := s.runs[t := s.runs[t].(phase := Running)]), t, Streaming)
  }

  predicate CanEmit(s: State, t: Turn) {
    RunIs(s, t, Running) && !s.runs[t].token
  }

  datatype Ending = Completes | IsInterrupted | Fails

  predicate CanEnd(s: State, t: Turn, ending: Ending) {
    RunIs(s, t, Running) && (ending.Completes? ==> !s.runs[t].token)
  }

  /** `_set_terminal_if_open`, the release of the active turn, and the event if the status changed. */
  function CommitIfOpen(s: State, t: Turn, status: Status, kind: Kind): State {
    if t in s.service.states && Terminal(s.service.states[t]) then ClearActive(s, t)
    else Publish(ClearActive(SetStatus(s, t, status), t), kind, t)
  }

  /** The terminal commit.  A completed user turn publishes later, from its post-commit task. */
  function Commit(s: State, t: Turn, ending: Ending): State {
    match ending
    case IsInterrupted => CommitIfOpen(s, t, Cancelled, IsCancelled)
    case Fails => CommitIfOpen(s, t, Failed, IsFailed)
    case Completes =>
      var done := ClearActive(SetStatus(s, t, Completed), t);
      if t in s.accepts then done.(service := done.service.(finalizing := s.service.finalizing + {t}))
      else Publish(done, IsCompleted, t)
  }

  /** Then the run's `finally`: the user priority ends, or the lifecycle forgets its task. */
  function AfterEnd(s: State, t: Turn, ending: Ending): State
    requires CanEnd(s, t, ending)
  {
    var committed := Commit(s, t, ending);
    var done := committed.(runs := committed.runs[t := s.runs[t].(phase := Done)]);
    if t in s.accepts then done.(lifecycle := done.lifecycle.(users := done.lifecycle.users - {t}))
    else ClearTask(done, t)
  }

  predicate CanFinalize(s: State, t: Turn) {
    t in s.service.finalizing
  }

  function AfterFinalize(s: State, t: Turn): State {
    Publish(s.(service := s.service.(finalizing := s.service.finalizing - {t})), IsCompleted, t)
  }

  // ----- Proactive runs -----

  predicate CanTryStart(s: State, t: Turn) {
    && t !in s.runs && t !in s.accepts
    && !s.lifecycle.closed && s.lifecycle.users == {}
    && (s.lifecycle.task.None? || !Live(s, s.lifecycle.task.value))
  }

  function AfterTryStart(s: State, t: Turn): State {
    s.(runs := s.runs[t := Run(Created, false, 0, 0)],
       lifecycle := s.lifecycle.(task := Some(t), cancellationStarted := false))
  }

  predicate CanRegisterProactive(s: State, t: Turn) {
    t !in s.accepts && RunIs(s, t, Created) && !s.runs[t].token && s.control.coordinationLock.None?
  }

  /** `run_proactive` up to its pipeline call: rejected when the service is closed or has an active turn. */
  function AfterRegisterProactive(s: State, t: Turn): State
    requires CanRegisterProactive(s, t)
  {
    var run := s.runs[t];
    if s.service.closed || s.service.active.Some? then
      ClearTask(s.(runs := s.runs[t := run.(phase := Done, token := true)]), t)
    else
      Publish(s.(runs := s.runs[t := run.(phase := Running)],
                 service := s.service.(
                   states := s.service.states[t := Streaming],
                   sessionTurn := s.service.sessionTurn[LOCAL_SESSION := t],
                   active := Some(Active(t, Proactive, true, false)))),
              IsAccepted, t)
  }

  predicate CanCancelBeforeRun(s: State, t: Turn) {
    t !in s.accepts && RunIs(s, t, Created) && s.runs[t].token
  }

  /** A task cancelled before its first step runs no `finally`; one cancelled at its first wait does. */
  function AfterCancelBeforeRun(s: State, t: Turn, entered: bool): State
    requires CanCancelBeforeRun(s, t)
  {
    var done := s.(runs := s.runs[t := s.runs[t].(phase := Done)]);
    if entered then ClearTask(done, t) else done
  }

  predicate CanForgetTask(s: State) {
    s.lifecycle.task.Some? && RunIs(s, s.lifecycle.task.value, Done)
  }

  // ----- shutdown -----

  predicate CanShutDown(s: State) {
    !s.service.closed && s.control.coordinationLock.None?
  }

  function AfterShutDown(s: State): State {
    var signalled := SignalActive(s);
    var waiting := set t | t in s.accepts && s.accepts[t].point != Returned;
    signalled.(service := signalled.service.(closed := true),
               control := signalled.control.(shutdown := DrainingAccepts(waiting)))
  }

  /** Tasks in `_pipeline_tasks`: user runs and proactive runs that have registered. */
  function PipelineTasks(s: State): set<Turn> {
    set t | t in s.runs && s.runs[t].phase != Done && (t in s.accepts || t in s.service.states)
  }

  predicate CanDrain(s: State) {
    match s.control.shutdown
    case DrainingAccepts(waitFor) => forall t :: t in waitFor ==> AcceptIs(s, t, Returned)
    case DrainingRuns(waitFor) => forall t :: t in waitFor ==> !Live(s, t)
    case DrainingPosts(waitFor) => waitFor * s.service.finalizing == {}
    case _ => false
  }

  function AfterDrain(s: State): State
    requires CanDrain(s)
  {
    s.(control := s.control.(shutdown :=
         match s.control.shutdown
         case DrainingAccepts(_) => DrainingRuns(PipelineTasks(s))
         case DrainingRuns(_) => DrainingPosts(s.service.finalizing)
         case _ => PipelineClosed))
  }

  // ----- All actions -----

  datatype Action =
    | CallAccept(turn: Turn, session: nat) | Acquire(turn: Turn) | LeaveProactiveJoin(turn: Turn)
    | SignalOld(turn: Turn) | LeaveOldJoin(turn: Turn) | Register(turn: Turn) | Start(turn: Turn)
    | FinishStart(turn: Turn) | Abort(turn: Turn) | CancelOwn(turn: Turn) | LeaveOwnJoin(turn: Turn)
    | RunUser(turn: Turn) | EmitEvent(turn: Turn) | EndRun(turn: Turn, ending: Ending) | Finalize(turn: Turn)
    | TryStart(turn: Turn) | RegisterProactive(turn: Turn) | CancelBeforeRun(turn: Turn, entered: bool)
    | ForgetTask | CancelActive | CloseLifecycle
    | CancelTurn(turn: Turn) | ShutDown | Drain

  predicate Enabled(s: State, a: Action) {
    match a
    case CallAccept(t, _) => t !in s.accepts && t !in s.runs
    case Acquire(t) => CanAcquire(s, t)
    case LeaveProactiveJoin(t) => CanLeaveProactiveJoin(s, t)
    case SignalOld(t) => CanSignalOld(s, t)
    case LeaveOldJoin(t) => CanLeaveOldJoin(s, t)
    case Register(t) => CanRegister(s, t)
    case Start(t) => CanStart(s, t)
    case FinishStart(t) => CanFinishStart(s, t)
    case Abort(t) => CanAbort(s, t)
    case CancelOwn(t) => CanCancelOwn(s, t)
    case LeaveOwnJoin(t) => CanLeaveOwnJoin(s, t)
    case RunUser(t) => CanRunUser(s, t)
    case EmitEvent(t) => CanEmit(s, t)
    case EndRun(t, ending) => CanEnd(s, t, ending)
    case Finalize(t) => CanFinalize(s, t)
    case TryStart(t) => CanTryStart(s, t)
    case RegisterProactive(t) => CanRegisterProactive(s, t)
    case CancelBeforeRun(t, _) => CanCancelBeforeRun(s, t)
    case ForgetTask => CanForgetTask(s)
    case CancelActive => true
    case CloseLifecycle => true
    case CancelTurn(_) => s.control.coordinationLock.None?
    case ShutDown => CanShutDown(s)
    case Drain => CanDrain(s)
  }

  function Do(s: State, a: Action): State
    requires Enabled(s, a)
  {
    match a
    case CallAccept(t, session) => AfterCallAccept(s, t, session)
    case Acquire(t) => AfterAcquire(s, t)
    case LeaveProactiveJoin(t) => AfterProactiveJoin(s, t)
    case SignalOld(t) => AfterSignalOld(s, t)
    case LeaveOldJoin(t) => MoveTo(s, t, Registering)
    case Register(t) => AfterRegister(s, t)
    case Start(t) => AfterStart(s, t)
    case FinishStart(t) => AfterFinishStart(s, t)
    case Abort(t) => AfterAbort(s, t)
    case CancelOwn(t) => AfterCancelOwn(s, t)
    case LeaveOwnJoin(t) => Return(s, t)
    case RunUser(t) => AfterRunUser(s, t)
    case EmitEvent(t) => Publish(s, FromPipeline, t)
    case EndRun(t, ending) => AfterEnd(s, t, ending)
    case Finalize(t) => AfterFinalize(s, t)
    case TryStart(t) => AfterTryStart(s, t)
    case RegisterProactive(t) => AfterRegisterProactive(s, t)
    case CancelBeforeRun(t, entered) => AfterCancelBeforeRun(s, t, entered)
    case ForgetTask => ClearTask(s, s.lifecycle.task.value)
    case CancelActive => SignalLifecycle(s)
    case CloseLifecycle => SignalLifecycle(s.(lifecycle := s.lifecycle.(closed := true)))
    case CancelTurn(t) => CancelRegistered(s, t)
    case ShutDown => AfterShutDown(s)
    case Drain => AfterDrain(s)
  }

  ghost predicate IsRun(run: seq<State>) {
    && run != [] && run[0] == INITIAL
    && forall i :: 0 <= i < |run| - 1 ==> Step(run[i], run[i + 1])
  }

  ghost predicate Step(s: State, t: State) {
    exists a :: Enabled(s, a) && t == Do(s, a)
  }

  // ----- The published events -----

  function LastAccepted(log: seq<Event>): Option<Turn> {
    if log == [] then None
    else if log[|log| - 1].kind == IsAccepted then Some(log[|log| - 1].turn)
    else LastAccepted(log[..|log| - 1])
  }

  /** The only event a turn may publish after another one was accepted: the post-commit assistant.completed. */
  predicate MayBeLate(e: Event) {
    e.kind == IsCompleted && e.origin == User
  }

  /** Every other event belongs to the turn accepted last. */
  predicate Orderly(log: seq<Event>) {
    log == [] ||
    var before, last := log[..|log| - 1], log[|log| - 1];
    Orderly(before) && (last.kind == IsAccepted || MayBeLate(last) || LastAccepted(before) == Some(last.turn))
  }
}
