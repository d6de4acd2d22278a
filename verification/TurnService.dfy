/** The objects of app/core/turns.py and app/proactive/lifecycle.py.

    Each method is the code that runs between two suspension points.  Its contract ties the new state of the
    objects to the step system of `TurnArbitration`, about which the results are proved. */
module TurnServices {
  import opened Options
  import opened TurnArbitration
  import Proofs = TurnArbitrationProofs
  import Results = TurnArbitrationResults

  /** What the event loop knows: the run tasks, where each accept call stands, and the published events. */
  class EventLoop {
    var runs: map<Turn, Run>
    var accepts: map<Turn, Accept>
    var log: seq<Event>

    constructor ()
      ensures runs == map[] && accepts == map[] && log == []
    {
      runs, accepts, log := map[], map[], [];
    }

    method CreateTask(t: Turn)
      modifies `runs
      ensures runs == old(runs)[t := Run(Created, false, 0, 0)]
    {
      runs := runs[t := Run(Created, false, 0, 0)];
    }

    method SetPhase(t: Turn, phase: RunPhase)
      requires t in runs
      modifies `runs
      ensures runs == old(runs)[t := old(runs)[t].(phase := phase)]
    {
      runs := runs[t := runs[t].(phase := phase)];
    }

    method MoveCall(t: Turn, point: AcceptPoint)
      requires t in accepts
      modifies `accepts
      ensures accepts == old(accepts)[t := old(accepts)[t].(point := point)]
    {
      accepts := accepts[t := accepts[t].(point := point)];
    }
  }

  class ProactiveLifecycle {
    const loop: EventLoop
    var userTurns: set<Turn>
    var task: Option<Turn>
    var cancellationStarted: bool
    var closed: bool

    constructor (loop: EventLoop)
      ensures this.loop == loop && View() == Lifecycle({}, None, false, false)
    {
      this.loop := loop;
      userTurns, task, cancellationStarted, closed := {}, None, false, false;
    }

    ghost function View(): Lifecycle
      reads this
    {
      Lifecycle(userTurns, task, cancellationStarted, closed)
    }

    /** The lifecycle and its tasks, in an otherwise blank state: all that its operations depend on. */
    ghost function Alone(): State
      reads this, loop
    {
      INITIAL.(lifecycle := View(), runs := loop.runs, accepts := loop.accepts)
    }

    /** Starts a proactive run unless it is closed, a user turn has priority, or one is still at work. */
    method TryStart(t: Turn) returns (started: bool)
      requires t !in loop.runs && t !in loop.accepts
      modifies `task, `cancellationStarted, loop`runs
      ensures started <==> old(CanTryStart(Alone(), t))
      ensures Alone() == if started then AfterTryStart(old(Alone()), t) else old(Alone())
    {
      if closed || userTurns != {} {
        return false;
      }
      if task.Some? && task.value in loop.runs && loop.runs[task.value].phase != Done {
        return false;
      }
      loop.CreateTask(t);
      task, cancellationStarted := Some(t), false;
      return true;
    }

    /** Gives `t` priority and signals the current task, which the caller has to join. */
    method BeginUserTurn(t: Turn) returns (join: Option<Turn>)
      modifies `userTurns, `cancellationStarted, loop`runs
      ensures join == old(task)
      ensures var before := old(Alone());
              Alone() == SignalLifecycle(before.(lifecycle := before.lifecycle.(users := before.lifecycle.users + {t})))
    {
      userTurns := userTurns + {t};
      join := task;
      SignalCancelLocked();
    }

    method EndUserTurn(t: Turn)
      modifies `userTurns
      ensures userTurns == old(userTurns) - {t}
    {
      userTurns := userTurns - {t};
    }

    method CancelActive()
      modifies `cancellationStarted, loop`runs
      ensures Alone() == SignalLifecycle(old(Alone()))
    {
      SignalCancelLocked();
    }

    method Close()
      modifies `closed, `cancellationStarted, loop`runs
      ensures var before := old(Alone());
              Alone() == SignalLifecycle(before.(lifecycle := before.lifecycle.(closed := true)))
    {
      closed := true;
      SignalCancelLocked();
    }

    /** The task `t` has ended: forget it, unless another one has taken its place. */
    method ClearTask(t: Turn)
      modifies `task, `cancellationStarted
      ensures Alone() == TurnArbitration.ClearTask(old(Alone()), t)
    {
      if task == Some(t) {
        task, cancellationStarted := None, false;
      }
    }

    method SignalCancelLocked()
      modifies `cancellationStarted, loop`runs
      ensures Alone() == SignalLifecycle(old(Alone()))
    {
      if cancellationStarted {
        return;
      }
      if task.Some? && task.value in loop.runs {
        var t := task.value;
        loop.runs := loop.runs[t := loop.runs[t].(token := true)];
        if loop.runs[t].phase != Done {
          cancellationStarted := true;
          loop.runs := loop.runs[t := loop.runs[t].(byLifecycle := loop.runs[t].byLifecycle + 1)];
        }
      }
    }
  }

  class TurnService {
    const loop: EventLoop
    const lifecycle: ProactiveLifecycle
    var states: map<Turn, Status>
    var sessionTurn: map<nat, Turn>
    var active: Option<Active>
    var postCommit: set<Turn>
    var closed: bool
    var acceptLock: Option<Turn>
    var coordinationLock: Option<Turn>
    var shutdown: Shutdown

    constructor (lifecycle: ProactiveLifecycle)
      ensures this.lifecycle == lifecycle && loop == lifecycle.loop
      ensures View() == INITIAL.(lifecycle := lifecycle.View(), runs := loop.runs, accepts := loop.accepts, log := loop.log)
    {
      this.lifecycle, loop := lifecycle, lifecycle.loop;
      states, sessionTurn, active, postCommit, closed := map[], map[], None, {}, false;
      acceptLock, coordinationLock, shutdown := None, None, NotStarted;
    }

    ghost predicate Wired() {
      lifecycle.loop == loop
    }

    ghost function ServiceView(): Service
      reads `states, `sessionTurn, `active, `postCommit, `closed
    {
      Service(states, sessionTurn, active, postCommit, closed)
    }

    ghost function View(): State
      reads this, lifecycle, loop
    {
      State(ServiceView(), Control(acceptLock, coordinationLock, shutdown), lifecycle.View(),
            loop.runs, loop.accepts, loop.log)
    }

    /** The objects are wired together, and their state satisfies the invariant of turn arbitration. */
    ghost predicate Valid()
      reads this, lifecycle, loop
    {
      Wired() && Proofs.Inv(View())
    }

    // ----- Helpers -----

    method Publish(kind: Kind, t: Turn)
      modifies loop`log
      ensures View() == TurnArbitration.Publish(old(View()), kind, t)
    {
      loop.log := loop.log + [Event(kind, if t in loop.accepts then User else Proactive, t)];
    }

    method SetStatus(t: Turn, status: Status)
      modifies `states
      ensures View() == TurnArbitration.SetStatus(old(View()), t, status)
    {
      states := states[t := status];
    }

    method ClearActiveLocked(t: Turn)
      modifies `active, `sessionTurn
      ensures View() == ClearActive(old(View()), t)
    {
      if active.Some? && active.value.turn == t {
        active := None;
      }
      var session := if t in loop.accepts then loop.accepts[t].session else LOCAL_SESSION;
      if t in states && session in sessionTurn && sessionTurn[session] == t {
        sessionTurn := sessionTurn - {session};
      }
    }

    method CancelOnTheSpot(t: Turn)
      modifies `states, `active, `sessionTurn, loop`log
      ensures View() == CancelImmediately(old(View()), t)
    {
      SetStatus(t, Cancelled);
      ClearActiveLocked(t);
      Publish(IsCancelled, t);
    }

    /** Cancels the active turn, or its task if one is live; the caller joins that task. */
    method SignalActiveCancellationLocked() returns (join: Option<Turn>)
      modifies `states, `active, `sessionTurn, loop`log, loop`runs
      ensures View() == SignalActive(old(View()))
      ensures join == old(TaskToJoin(View()))
    {
      if active.None? {
        return None;
      }
      var t := active.value.turn;
      if t !in states || Terminal(states[t]) {
        ClearActiveLocked(t);
        return None;
      }
      if !active.value.hasTask || t !in loop.runs || loop.runs[t].phase == Done {
        CancelOnTheSpot(t);
        return None;
      }
      if !active.value.cancellationStarted {
        active := Some(active.value.(cancellationStarted := true));
        var run := loop.runs[t];
        var alreadySignalled := run.token;
        run := run.(token := true);
        if !alreadySignalled {
          run := run.(byService := run.byService + 1);
        }
        loop.runs := loop.runs[t := run];
      }
      return Some(t);
    }

    method CancelRegisteredTurn(t: Turn) returns (join: Option<Turn>)
      modifies `states, `active, `sessionTurn, loop`log, loop`runs
      ensures View() == CancelRegistered(old(View()), t)
      ensures join == if old(IsActive(View(), t)) then old(TaskToJoin(View())) else None
    {
      if t !in states || Terminal(states[t]) {
        return None;
      }
      if active.Some? && active.value.turn == t {
        join := SignalActiveCancellationLocked();
        return;
      }
      CancelOnTheSpot(t);
      return None;
    }

    /** `cancel`: afterwards the turn is terminal, or its live task has been signalled and is joined. */
    method Cancel(t: Turn) returns (join: Option<Turn>)
      requires Valid() && coordinationLock.None?
      modifies `states, `active, `sessionTurn, loop`log, loop`runs
      ensures Valid() && View() == CancelRegistered(old(View()), t)
      ensures t in states && !Terminal(states[t]) ==>
                IsActive(View(), t) && active.value.cancellationStarted && Live(View(), t)
    {
      hide Proofs.Inv, CancelRegistered;
      Proofs.CancelRegisteredKeeps(View(), t);
      Results.CancelledOrSignalled(View(), t);
      join := CancelRegisteredTurn(t);
    }

    method Return(t: Turn)
      requires Wired() && t in loop.accepts
      modifies lifecycle`userTurns, loop`accepts
      ensures View() == TurnArbitration.Return(old(View()), t)
    {
      lifecycle.EndUserTurn(t);
      loop.MoveCall(t, Returned);
    }

    // ----- accept -----

    method CallAccept(t: Turn, session: nat)
      requires Valid() && t !in loop.accepts && t !in loop.runs
      modifies loop`accepts
      ensures Valid() && View() == AfterCallAccept(old(View()), t, session)
    {
      hide Proofs.Inv;
      Proofs.CallAcceptKeeps(View(), t, session);
      loop.accepts := loop.accepts[t := Accept(WaitingForLock, session)];
    }

    method Acquire(t: Turn)
      requires Valid() && CanAcquire(View(), t)
      modifies `acceptLock, lifecycle`userTurns, lifecycle`cancellationStarted, loop`runs, loop`accepts
      ensures Valid() && View() == AfterAcquire(old(View()), t)
      ensures lifecycle.task.Some? && Live(View(), lifecycle.task.value) ==> loop.runs[lifecycle.task.value].token
    {
      hide Proofs.Inv;
      Proofs.AcquireKeeps(View(), t);
      acceptLock := Some(t);
      var task := lifecycle.BeginUserTurn(t);
      loop.MoveCall(t, JoiningProactive(task));
      Results.PriorityOf(View(), t);
    }

    method LeaveProactiveJoin(t: Turn)
      requires Valid() && CanLeaveProactiveJoin(View(), t)
      modifies lifecycle`task, lifecycle`cancellationStarted, loop`accepts
      ensures Valid() && View() == AfterProactiveJoin(old(View()), t)
    {
      hide Proofs.Inv;
      Proofs.ProactiveJoinKeeps(View(), t);
      var task := loop.accepts[t].point.task;
      if task.Some? {
        lifecycle.ClearTask(task.value);
      }
      loop.MoveCall(t, Signalling);
    }

    method SignalOld(t: Turn)
      requires Valid() && CanSignalOld(View(), t)
      modifies `states, `active, `sessionTurn, loop
      ensures Valid() && View() == AfterSignalOld(old(View()), t)
    {
      hide Proofs.Inv;
      Proofs.SignalOldKeeps(View(), t);
      var oldTask := SignalActiveCancellationLocked();
      loop.MoveCall(t, if oldTask.Some? then JoiningOld(oldTask.value) else Registering);
    }

    method LeaveOldJoin(t: Turn)
      requires Valid() && CanLeaveOldJoin(View(), t)
      modifies loop`accepts
      ensures Valid() && View() == MoveTo(old(View()), t, Registering)
    {
      hide Proofs.Inv;
      Proofs.OldJoinKeeps(View(), t);
      loop.MoveCall(t, Registering);
    }

    /** Raises on a closed service. */
    method Register(t: Turn) returns (registered: bool)
      requires Valid() && CanRegister(View(), t)
      modifies `states, `sessionTurn, `active, `acceptLock, lifecycle`userTurns, loop`accepts, loop`log
      ensures Valid() && View() == AfterRegister(old(View()), t) && registered == !closed
      ensures registered ==> Results.NoProactiveWork(View())
    {
      hide Proofs.Inv;
      Proofs.RegisterKeeps(View(), t);
      acceptLock := None;
      if closed {
        Return(t);
        return false;
      }
      states := states[t := Accepted];
      sessionTurn := sessionTurn[loop.accepts[t].session := t];
      active := Some(Active(t, User, false, false));
      Publish(IsAccepted, t);
      loop.MoveCall(t, Observing);
      Results.PriorityWhileObserving(View(), t);
      return true;
    }

    method Start(t: Turn) returns (started: bool)
      requires Valid() && CanStart(View(), t)
      modifies `active, `sessionTurn, `coordinationLock, lifecycle`userTurns, loop`accepts, loop`runs
      ensures Valid() && View() == AfterStart(old(View()), t) && started == old(MayRun(View(), t))
    {
      hide Proofs.Inv;
      Proofs.StartKeeps(View(), t);
      started := !closed && t in states && states[t] == Accepted && active.Some? && active.value.turn == t;
      if started {
        loop.CreateTask(t);
        active := Some(active.value.(hasTask := true));
        coordinationLock := Some(t);
        loop.MoveCall(t, AwaitingStart);
      } else {
        ClearActiveLocked(t);
        Return(t);
      }
    }

    method FinishStart(t: Turn)
      requires Valid() && CanFinishStart(View(), t)
      modifies `coordinationLock, loop`accepts
      ensures Valid() && View() == AfterFinishStart(old(View()), t)
    {
      hide Proofs.Inv;
      Proofs.LeaveStartKeeps(View(), t, Returned);
      coordinationLock := None;
      loop.MoveCall(t, Returned);
    }

    method Abort(t: Turn)
      requires Valid() && CanAbort(View(), t)
      modifies `acceptLock, `coordinationLock, lifecycle`userTurns, loop`accepts
      ensures Valid() && View() == AfterAbort(old(View()), t)
    {
      hide Proofs.Inv;
      Proofs.AbortKeeps(View(), t);
      var point := loop.accepts[t].point;
      if point == WaitingForLock {
        loop.MoveCall(t, Returned);
      } else if point == Observing {
        loop.MoveCall(t, CancellingOwn);
      } else if point == AwaitingStart {
        coordinationLock := None;
        loop.MoveCall(t, CancellingOwn);
      } else {
        acceptLock := None;
        Return(t);
      }
    }

    method CancelOwn(t: Turn)
      requires Valid() && CanCancelOwn(View(), t)
      modifies `states, `active, `sessionTurn, lifecycle`userTurns, loop
      ensures Valid() && View() == AfterCancelOwn(old(View()), t)
    {
      hide Proofs.Inv;
      Proofs.CancelOwnKeeps(View(), t);
      var task := CancelRegisteredTurn(t);
      if task.Some? {
        loop.MoveCall(t, JoiningOwn);
      } else {
        Return(t);
      }
    }

    method LeaveOwnJoin(t: Turn)
      requires Valid() && CanLeaveOwnJoin(View(), t)
      modifies lifecycle`userTurns, loop`accepts
      ensures Valid() && View() == TurnArbitration.Return(old(View()), t)
    {
      hide Proofs.Inv;
      Proofs.OwnJoinKeeps(View(), t);
      Return(t);
    }

    // ----- Run tasks -----

    method RunUser(t: Turn)
      requires Valid() && CanRunUser(View(), t)
      modifies `states, loop`runs
      ensures Valid() && View() == AfterRunUser(old(View()), t)
      ensures forall u :: RunIs(View(), u, Running) ==> u == t
    {
      hide Proofs.Inv;
      Proofs.RunUserKeeps(View(), t);
      loop.SetPhase(t, Running);
      SetStatus(t, Streaming);
      Results.OnlyRunning(View(), t);
    }

    /** The emitter given to the pipeline raises instead of publishing once the token is cancelled. */
    method Emit(t: Turn) returns (published: bool)
      requires Valid() && RunIs(View(), t, Running)
      modifies loop`log
      ensures published == old(CanEmit(View(), t))
      ensures Valid()
      ensures View() == if published then TurnArbitration.Publish(old(View()), FromPipeline, t) else old(View())
      ensures published ==> IsActive(View(), t) && t in states && states[t] == Streaming
    {
      hide Proofs.Inv;
      Results.RunningOwns(View(), t);
      if loop.runs[t].token {
        return false;
      }
      Proofs.EmitKeeps(View(), t);
      Publish(FromPipeline, t);
      return true;
    }

    method SetTerminalIfOpen(t: Turn, status: Status) returns (changed: bool)
      modifies `states
      ensures changed == !(t in old(states) && Terminal(old(states)[t]))
      ensures View() == if changed then TurnArbitration.SetStatus(old(View()), t, status) else old(View())
    {
      if t in states && Terminal(states[t]) {
        return false;
      }
      SetStatus(t, status);
      return true;
    }

    method CommitIfOpen(t: Turn, status: Status, kind: Kind)
      modifies `states, `active, `sessionTurn, loop`log
      ensures View() == TurnArbitration.CommitIfOpen(old(View()), t, status, kind)
    {
      var changed := SetTerminalIfOpen(t, status);
      ClearActiveLocked(t);
      if changed {
        Publish(kind, t);
      }
    }

    method Commit(t: Turn, ending: Ending)
      modifies `states, `active, `sessionTurn, `postCommit, loop`log
      ensures View() == TurnArbitration.Commit(old(View()), t, ending)
    {
      match ending
      case IsInterrupted => CommitIfOpen(t, Cancelled, IsCancelled);
      case Fails => CommitIfOpen(t, Failed, IsFailed);
      case Completes =>
        SetStatus(t, Completed);
        ClearActiveLocked(t);
        if t in loop.accepts {
          postCommit := postCommit + {t};
        } else {
          Publish(IsCompleted, t);
        }
    }

    method EndRun(t: Turn, ending: Ending)
      requires Valid() && CanEnd(View(), t, ending)
      modifies `states, `active, `sessionTurn, `postCommit, lifecycle, loop`log, loop`runs
      ensures Valid() && View() == AfterEnd(old(View()), t, ending)
      ensures Results.SettledOnce(View(), t) && t in states && Terminal(states[t])
      ensures forall u :: !RunIs(View(), u, Running)
      ensures ending.IsInterrupted? ==>
                states[t] == Cancelled && loop.log == old(loop.log) + [Event(IsCancelled, OriginOf(View(), t), t)]
      ensures ending.Fails? ==>
                states[t] == Failed && loop.log == old(loop.log) + [Event(IsFailed, OriginOf(View(), t), t)]
      ensures ending.Completes? ==> states[t] == Completed
      ensures ending.Completes? && t in loop.accepts ==> loop.log == old(loop.log) && t in postCommit
      ensures ending.Completes? && t !in loop.accepts ==>
                loop.log == old(loop.log) + [Event(IsCompleted, Proactive, t)]
    {
      hide Proofs.Inv;
      hide Results.SettledOnce;
      Results.EndingDecides(View(), t, ending);
      Proofs.EndKeeps(View(), t, ending);
      Results.AfterItsEnd(View(), t, ending);
      Commit(t, ending);
      loop.SetPhase(t, Done);
      if t in loop.accepts {
        lifecycle.EndUserTurn(t);
      } else {
        lifecycle.ClearTask(t);
      }
    }

    method FinalizeCompleted(t: Turn)
      requires Valid() && CanFinalize(View(), t)
      modifies `postCommit, loop`log
      ensures Valid() && View() == AfterFinalize(old(View()), t)
      ensures Results.SettledOnce(View(), t)
    {
      hide Proofs.Inv;
      Proofs.FinalizeKeeps(View(), t);
      postCommit := postCommit - {t};
      Publish(IsCompleted, t);
      Results.EventsOf(View(), t);
    }

    /** `run_proactive` up to its pipeline call; false when it gives up at once. */
    method RegisterProactive(t: Turn) returns (registered: bool)
      requires Valid() && CanRegisterProactive(View(), t)
      modifies `states, `sessionTurn, `active, lifecycle`task, lifecycle`cancellationStarted, loop`log, loop`runs
      ensures Valid() && View() == AfterRegisterProactive(old(View()), t)
      ensures registered == !(closed || old(active).Some?)
      ensures registered ==> lifecycle.userTurns == {}
    {
      hide Proofs.Inv;
      Proofs.RegisterProactiveKeeps(View(), t);
      Results.NoPriorityBeside(View(), t);
      if closed || active.Some? {
        loop.runs := loop.runs[t := loop.runs[t].(phase := Done, token := true)];
        lifecycle.ClearTask(t);
        return false;
      }
      loop.SetPhase(t, Running);
      sessionTurn := sessionTurn[LOCAL_SESSION := t];
      active := Some(Active(t, Proactive, true, false));
      states := states[t := Streaming];
      Publish(IsAccepted, t);
      return true;
    }

    /** A proactive task that was cancelled before its first step ends without its `finally`; one that was
        cancelled at its first wait runs it. */
    method CancelBeforeRun(t: Turn, entered: bool)
      requires Valid() && CanCancelBeforeRun(View(), t)
      modifies lifecycle`task, lifecycle`cancellationStarted, loop`runs
      ensures Valid() && View() == AfterCancelBeforeRun(old(View()), t, entered)
    {
      hide Proofs.Inv;
      Proofs.CancelBeforeRunKeeps(View(), t, entered);
      loop.SetPhase(t, Done);
      if entered {
        lifecycle.ClearTask(t);
      }
    }

    // ----- shutdown -----

    method ShutDown()
      requires Valid() && CanShutDown(View())
      modifies `states, `active, `sessionTurn, `closed, `shutdown, loop`log, loop`runs
      ensures Valid() && View() == AfterShutDown(old(View()))
      ensures active.Some? ==> active.value.cancellationStarted && Live(View(), active.value.turn)
    {
      hide Proofs.Inv;
      Proofs.ShutDownKeeps(View());
      var _ := SignalActiveCancellationLocked();
      closed := true;
      shutdown := DrainingAccepts(set t | t in loop.accepts && loop.accepts[t].point != Returned);
    }

    method Drain()
      requires Valid() && CanDrain(View())
      modifies `shutdown
      ensures Valid() && View() == AfterDrain(old(View()))
      ensures shutdown == PipelineClosed ==> forall u :: !RunIs(View(), u, Running)
    {
      hide Proofs.Inv;
      Proofs.DrainKeeps(View());
      Results.NoneRunsOnceClosed(AfterDrain(View()));
      if shutdown.DrainingAccepts? {
        shutdown := DrainingRuns(
          set t | t in loop.runs && loop.runs[t].phase != Done && (t in loop.accepts || t in states));
      } else if shutdown.DrainingRuns? {
        shutdown := DrainingPosts(postCommit);
      } else {
        shutdown := PipelineClosed;
      }
    }
  }

  /** The composition of app/main.py: one lifecycle is the priority controller of one service. */
  class Backend {
    const service: TurnService

    ghost predicate Valid()
      reads service, service.lifecycle, service.loop
    {
      service.Valid()
    }

    constructor ()
      ensures Valid() && service.View() == INITIAL
    {
      var loop := new EventLoop();
      var lifecycle := new ProactiveLifecycle(loop);
      service := new TurnService(lifecycle);
      Results.InitialInv();
    }

    method StartProactive(t: Turn) returns (started: bool)
      requires Valid() && t !in service.loop.runs && t !in service.loop.accepts
      modifies service.lifecycle`task, service.lifecycle`cancellationStarted, service.loop`runs
      ensures Valid() && started == old(CanTryStart(service.View(), t))
      ensures service.View() == if started then AfterTryStart(old(service.View()), t) else old(service.View())
      ensures started ==> service.lifecycle.userTurns == {}
      ensures started ==> forall u :: u !in service.loop.accepts && Live(service.View(), u) ==> u == t
    {
      hide Proofs.Inv;
      ghost var before := service.View();
      if CanTryStart(before, t) {
        Proofs.TryStartKeeps(before, t);
        Results.StartedAlone(before, t);
      }
      started := service.lifecycle.TryStart(t);
    }

    /** After it, a proactive task that is still live has been told to stop. */
    method CancelProactive()
      requires Valid()
      modifies service.lifecycle`cancellationStarted, service.loop`runs
      ensures Valid() && service.View() == SignalLifecycle(old(service.View()))
      ensures Proofs.ProactiveLive(service.View()) ==> service.loop.runs[service.lifecycle.task.value].token
    {
      hide Proofs.Inv;
      Proofs.SignalLifecycleKeeps(service.View());
      service.lifecycle.CancelActive();
    }

    method CloseLifecycle()
      requires Valid()
      modifies service.lifecycle`closed, service.lifecycle`cancellationStarted, service.loop`runs
      ensures Valid()
      ensures service.View() == Do(old(service.View()), Action.CloseLifecycle)
      ensures forall t :: !CanTryStart(service.View(), t)
    {
      hide Proofs.Inv;
      Proofs.StepKeeps(service.View(), Action.CloseLifecycle);
      service.lifecycle.Close();
    }

    /** `_join_and_clear` once the joined task has ended. */
    method ForgetProactive()
      requires Valid() && CanForgetTask(service.View())
      modifies service.lifecycle`task, service.lifecycle`cancellationStarted
      ensures Valid() && service.lifecycle.task == None
    {
      hide Proofs.Inv;
      Proofs.ClearTaskKeeps(service.View(), service.lifecycle.task.value);
      service.lifecycle.ClearTask(service.lifecycle.task.value);
    }
  }
}
