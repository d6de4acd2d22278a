/** The invariant of turn arbitration, and that every action keeps it. */
module TurnArbitrationProofs {
  import opened Options
  import opened TurnArbitration

  // ----- Facts about the shared variables -----

  ghost predicate ActiveOk(s: State) {
    match s.service.active
    case None => s.service.sessionTurn == map[]
    case Some(active) =>
      && s.service.sessionTurn == map[SessionOf(s, active.turn) := active.turn]
      && active.origin == OriginOf(s, active.turn)
      && LastAccepted(s.log) == Some(active.turn)
  }

  ghost predicate LocksOk(s: State) {
    && (s.control.acceptLock.Some? ==> s.control.acceptLock.value in s.accepts)
    && (s.control.coordinationLock.Some? ==> s.control.coordinationLock.value in s.accepts)
    && (s.lifecycle.task.Some? ==> s.lifecycle.task.value in s.runs && s.lifecycle.task.value !in s.accepts)
    && (s.service.closed <==> !s.control.shutdown.NotStarted?)
    && (s.service.closed ==> s.control.coordinationLock.None?)
    && (s.control.shutdown.DrainingAccepts? ==> s.control.shutdown.waitFor <= s.accepts.Keys)
  }

  /** Some proactive run has been started and has not ended. */
  predicate ProactiveLive(s: State) {
    s.lifecycle.task.Some? && Live(s, s.lifecycle.task.value)
  }

  // ----- Facts about one turn -----

  function StatusOf(s: State, t: Turn): Option<Status> {
    if t in s.service.states then Some(s.service.states[t]) else None
  }

  /** A turn is the active one exactly as long as its registered status is open. */
  ghost predicate Owner(s: State, t: Turn) {
    && (IsActive(s, t) <==> t in s.service.states && !Terminal(s.service.states[t]))
    && (t in s.service.states ==> t in s.accepts || t in s.runs)
    && (t in s.service.finalizing ==> t in s.accepts && t in s.service.states && s.service.states[t] == Completed)
  }

  /** Where the accept call of `t` is, and what it has done so far. */
  ghost predicate Accepting(s: State, t: Turn) {
    t in s.accepts ==>
      var registered, started := t in s.service.states, t in s.runs;
      match s.accepts[t].point
      case WaitingForLock => !registered && !started && t !in s.lifecycle.users
      case JoiningProactive(q) =>
        && !registered && !started && t in s.lifecycle.users
        && (ProactiveLive(s) ==> q == s.lifecycle.task) && (q.Some? ==> q.value in s.runs)
      case Signalling => !registered && !started && t in s.lifecycle.users
      case JoiningOld(previous) =>
        && !registered && !started && t in s.lifecycle.users
        && previous in s.runs && (s.service.active.None? || s.service.active.value.turn == previous)
      case Registering => !registered && !started && t in s.lifecycle.users && s.service.active.None?
      case Observing => registered && !started && t in s.lifecycle.users
      case AwaitingStart => registered && started && (t in s.lifecycle.users ==> Live(s, t))
      case CancellingOwn => registered && (started ==> s.runs[t].phase != Created)
      case JoiningOwn => registered && started && s.runs[t].phase != Created
      case Returned => (t in s.lifecycle.users ==> Live(s, t)) && (IsActive(s, t) ==> Live(s, t))
  }

  predicate HoldsAcceptLock(p: AcceptPoint) {
    p.JoiningProactive? || p.Signalling? || p.JoiningOld? || p.Registering?
  }

  ghost predicate Locking(s: State, t: Turn) {
    && (t in s.accepts ==> (HoldsAcceptLock(s.accepts[t].point) <==> s.control.acceptLock == Some(t)))
    && (t in s.accepts ==> (s.accepts[t].point == AwaitingStart <==> s.control.coordinationLock == Some(t)))
    && (t in s.lifecycle.users ==> t in s.accepts)
  }

  /** User priority: once the join of the proactive task is over, none is live while the turn holds priority;
      before that, a live one is already cancelled. */
  ghost predicate Priority(s: State, t: Turn) {
    t in s.lifecycle.users && t in s.accepts && ProactiveLive(s) ==>
      && s.accepts[t].point.JoiningProactive?
      && s.runs[s.lifecycle.task.value].token
  }

  ghost predicate UserRun(s: State, t: Turn) {
    t in s.accepts ==>
      && (IsActive(s, t) ==> (s.service.active.value.hasTask <==> t in s.runs))
      && (IsActive(s, t) && t !in s.runs ==> StatusOf(s, t) == Some(Accepted) && !s.service.active.value.cancellationStarted)
      && (t in s.runs ==>
            var run := s.runs[t];
            && (run.phase == Created ==>
                  IsActive(s, t) && StatusOf(s, t) == Some(Accepted) && s.accepts[t].point == AwaitingStart)
            && (run.phase == Running ==> IsActive(s, t) && StatusOf(s, t) == Some(Streaming))
            && (run.phase == Done ==> !IsActive(s, t))
            && (run.phase != Done ==> t in s.lifecycle.users)
            && run.byLifecycle == 0 && run.byService <= 1 && (run.token <==> run.byService == 1)
            && (IsActive(s, t) ==> (s.service.active.value.cancellationStarted <==> run.token)))
  }

  ghost predicate ProactiveRun(s: State, t: Turn) {
    t !in s.accepts && t in s.runs ==>
      var run := s.runs[t];
      && (run.phase != Done ==> s.lifecycle.task == Some(t))
      && (run.phase == Created ==> t !in s.service.states && run.byService == 0)
      && (run.phase == Running ==> IsActive(s, t) && StatusOf(s, t) == Some(Streaming) && s.service.active.value.hasTask)
      && (run.phase == Done ==> !IsActive(s, t))
      && run.byService <= 1 && run.byLifecycle <= 1
      && (run.phase != Done ==> (run.token <==> run.byService + run.byLifecycle > 0))
      && (run.phase != Done ==> (run.byLifecycle == 1 <==> s.lifecycle.cancellationStarted))
      && (IsActive(s, t) && !s.service.active.value.cancellationStarted ==> run.byService == 0)
  }

  /** The events published about `t` agree with its status, each at most once. */
  ghost predicate Published(s: State, t: Turn) {
    var mine, other := OriginOf(s, t), if t in s.accepts then Proactive else User;
    var status := StatusOf(s, t);
    var log := multiset(s.log);
    && log[Event(IsAccepted, mine, t)] == (if status.Some? then 1 else 0)
    && log[Event(IsCancelled, mine, t)] == (if status == Some(Cancelled) then 1 else 0)
    && log[Event(IsFailed, mine, t)] == (if status == Some(Failed) then 1 else 0)
    && log[Event(IsCompleted, mine, t)]
       == (if status == Some(Completed) && t !in s.service.finalizing then 1 else 0)
    && log[Event(IsAccepted, other, t)] == 0 && log[Event(IsCancelled, other, t)] == 0
    && log[Event(IsFailed, other, t)] == 0 && log[Event(IsCompleted, other, t)] == 0
  }

  /** After the closing step no new run begins, and each drain waits for every run that is still on. */
  ghost predicate Closing(s: State, t: Turn) {
    && (s.service.closed && IsActive(s, t) ==> Live(s, t))
    && (RunIs(s, t, Running) ==>
          match s.control.shutdown
          case NotStarted => true
          case DrainingAccepts(_) => true
          case DrainingRuns(waitFor) => t in waitFor
          case _ => false)
  }

  ghost predicate At(s: State, t: Turn) {
    && Owner(s, t) && Accepting(s, t) && Locking(s, t) && Priority(s, t)
    && UserRun(s, t) && ProactiveRun(s, t) && Published(s, t) && Closing(s, t)
  }

  ghost predicate Inv(s: State) {
    ActiveOk(s) && LocksOk(s) && Orderly(s.log) && forall t: Turn :: At(s, t)
  }

  // ----- The log -----

  lemma Append(log: seq<Event>, e: Event)
    requires Orderly(log)
    requires e.kind == IsAccepted || MayBeLate(e) || LastAccepted(log) == Some(e.turn)
    ensures Orderly(log + [e])
    ensures LastAccepted(log + [e]) == if e.kind == IsAccepted then Some(e.turn) else LastAccepted(log)
  {
    assert (log + [e])[..|log|] == log;
  }

  // ----- Turns an action does not touch -----

  predicate LogSameFor(log: seq<Event>, more: seq<Event>, u: Turn) {
    more == log || (more != [] && more[..|more| - 1] == log && more[|more| - 1].turn != u)
  }

  /** From `s` to `n` nothing that the facts about `u` speak of changes to its disadvantage. */
  ghost predicate SameFor(s: State, n: State, u: Turn) {
    && (u in s.accepts <==> u in n.accepts) && (u in s.accepts ==> s.accepts[u] == n.accepts[u])
    && (u in s.runs <==> u in n.runs) && (u in s.runs ==> s.runs[u] == n.runs[u])
    && StatusOf(s, u) == StatusOf(n, u)
    && (IsActive(s, u) <==> IsActive(n, u)) && (IsActive(s, u) ==> s.service.active == n.service.active)
    && (u in s.lifecycle.users <==> u in n.lifecycle.users)
    && (u in s.service.finalizing <==> u in n.service.finalizing)
    && LogSameFor(s.log, n.log, u)
    && (s.control.acceptLock == Some(u) <==> n.control.acceptLock == Some(u))
    && (s.control.coordinationLock == Some(u) <==> n.control.coordinationLock == Some(u))
    && (s.lifecycle.task == Some(u) <==> n.lifecycle.task == Some(u))
    && (s.lifecycle.task == Some(u) ==> s.lifecycle.cancellationStarted == n.lifecycle.cancellationStarted)
    && s.service.closed == n.service.closed && s.control.shutdown == n.control.shutdown
    && (s.control.acceptLock == Some(u) && n.service.active.Some? ==>
          s.service.active.Some? && s.service.active.value.turn == n.service.active.value.turn)
    && s.runs.Keys <= n.runs.Keys
    && (ProactiveLive(n) && u in s.lifecycle.users ==>
          && ProactiveLive(s) && n.lifecycle.task == s.lifecycle.task
          && (s.runs[s.lifecycle.task.value].token ==> n.runs[s.lifecycle.task.value].token))
  }

  lemma Untouched(s: State, n: State, u: Turn)
    requires At(s, u) && SameFor(s, n, u)
    ensures At(n, u)
  {
    UntouchedLog(s, n, u);
  }

  lemma UntouchedLog(s: State, n: State, u: Turn)
    requires Published(s, u) && SameFor(s, n, u)
    ensures Published(n, u)
  {
    if n.log != s.log {
      assert n.log == s.log + [n.log[|n.log| - 1]];
    }
  }

  // ----- accept -----

  // ----- Signalling -----

  /** Clearing a turn that is not the active one changes nothing. */
  lemma ClearOfOther(s: State, t: Turn)
    requires ActiveOk(s) && !IsActive(s, t)
    ensures ClearActive(s, t) == s
  {
  }

  lemma CancelImmediatelyAt(s: State, t: Turn)
    requires ActiveOk(s) && At(s, t) && IsActive(s, t) && t !in s.runs
    ensures At(CancelImmediately(s, t), t)
  {
    var n := CancelImmediately(s, t);
    assert n.log == s.log + [Event(IsCancelled, OriginOf(s, t), t)];
  }

  lemma CancelImmediatelyKeeps(s: State, t: Turn)
    requires Inv(s) && IsActive(s, t) && t !in s.runs
    ensures Inv(CancelImmediately(s, t))
  {
    var n := CancelImmediately(s, t);
    assert At(s, t);
    CancelImmediatelyAt(s, t);
    Append(s.log, Event(IsCancelled, OriginOf(s, t), t));
    forall u: Turn ensures At(n, u) {
      if u != t {
        assert At(s, u);
        Untouched(s, n, u);
      }
    }
  }

  lemma SignalTaskAt(s: State, t: Turn)
    requires ActiveOk(s) && LocksOk(s) && At(s, t) && IsActive(s, t) && Live(s, t)
    ensures At(SignalTask(s, s.service.active.value), t)
  {
  }

  lemma SignalTaskKeeps(s: State, t: Turn)
    requires Inv(s) && IsActive(s, t) && Live(s, t)
    ensures Inv(SignalTask(s, s.service.active.value))
  {
    var n := SignalTask(s, s.service.active.value);
    assert At(s, t);
    SignalTaskAt(s, t);
    forall u: Turn ensures At(n, u) {
      if u != t {
        assert At(s, u);
        Untouched(s, n, u);
      }
    }
  }

  /** What a signalling leaves: no active turn, or one whose live task has been signalled. */
  lemma SignalActiveKeeps(s: State)
    requires Inv(s)
    ensures Inv(SignalActive(s))
    ensures var n := SignalActive(s);
            && n.accepts == s.accepts && n.control == s.control && n.lifecycle == s.lifecycle
            && n.service.closed == s.service.closed && n.service.finalizing == s.service.finalizing
            && TaskToJoin(s) == (if n.service.active.Some? then Some(n.service.active.value.turn) else None)
            && (n.service.active.Some? ==> Live(n, n.service.active.value.turn) && n.service.active.value.cancellationStarted)
  {
    if s.service.active.Some? {
      var t := s.service.active.value.turn;
      assert At(s, t);
      if t in s.runs {
        SignalTaskKeeps(s, t);
      } else {
        CancelImmediatelyKeeps(s, t);
      }
    }
  }

  lemma SignalLifecycleAt(s: State)
    requires LocksOk(s) && s.lifecycle.task.Some? && At(s, s.lifecycle.task.value)
    ensures At(SignalLifecycle(s), s.lifecycle.task.value)
    ensures var n := SignalLifecycle(s); ProactiveLive(n) ==> ProactiveLive(s) && n.runs[n.lifecycle.task.value].token
  {
  }

  /** After the lifecycle has signalled, a proactive task that is still live is cancelled. */
  lemma SignalLifecycleKeeps(s: State)
    requires Inv(s)
    ensures Inv(SignalLifecycle(s))
    ensures var n := SignalLifecycle(s);
            && n.accepts == s.accepts && n.control == s.control && n.service == s.service && n.log == s.log
            && n.lifecycle.task == s.lifecycle.task && n.lifecycle.users == s.lifecycle.users
            && (ProactiveLive(n) ==> ProactiveLive(s) && n.runs[n.lifecycle.task.value].token)
  {
    hide At;
    var n := SignalLifecycle(s);
    if s.lifecycle.task.Some? {
      SignalLifecycleAt(s);
      forall u: Turn ensures At(n, u) {
        if u != s.lifecycle.task.value {
          Untouched(s, n, u);
        }
      }
    }
  }

  lemma ClearTaskKeeps(s: State, t: Turn)
    requires Inv(s) && RunIs(s, t, Done)
    ensures Inv(ClearTask(s, t))
  {
    var n := ClearTask(s, t);
    forall u: Turn ensures At(n, u) {
      assert At(s, u);
    }
  }

  // ----- accept -----

  lemma CallAcceptKeeps(s: State, t: Turn, session: nat)
    requires Inv(s) && t !in s.accepts && t !in s.runs
    ensures Inv(AfterCallAccept(s, t, session))
  {
    var n := AfterCallAccept(s, t, session);
    assert At(s, t);
    forall u: Turn ensures At(n, u) {
      assert At(s, u);
      if u != t {
        Untouched(s, n, u);
      }
    }
  }

  function Enter(s: State, t: Turn): State
    requires t in s.accepts
  {
    MoveTo(s.(control := s.control.(acceptLock := Some(t)), lifecycle := s.lifecycle.(users := s.lifecycle.users + {t})),
           t, JoiningProactive(s.lifecycle.task))
  }

  lemma AcquireKeeps(s: State, t: Turn)
    requires Inv(s) && CanAcquire(s, t)
    ensures Inv(AfterAcquire(s, t))
  {
    SignalLifecycleKeeps(s);
    var m := SignalLifecycle(s);
    assert AfterAcquire(s, t) == Enter(m, t);
    EnterKeeps(m, t);
  }

  lemma EnterKeeps(s: State, t: Turn)
    requires Inv(s) && CanAcquire(s, t) && (ProactiveLive(s) ==> s.runs[s.lifecycle.task.value].token)
    ensures Inv(Enter(s, t))
  {
    var n := Enter(s, t);
    assert At(s, t);
    forall u: Turn ensures At(n, u) {
      assert At(s, u);
      if u != t {
        Untouched(s, n, u);
      }
    }
  }

  lemma MoveAt(s: State, t: Turn, point: AcceptPoint)
    requires At(s, t) && t in s.accepts && s.accepts[t].point != AwaitingStart && point != AwaitingStart
    requires HoldsAcceptLock(s.accepts[t].point) == HoldsAcceptLock(point)
    requires Accepting(MoveTo(s, t, point), t) && Priority(MoveTo(s, t, point), t)
    ensures At(MoveTo(s, t, point), t)
  {
  }

  /** Moving an accept call that keeps its locks. */
  lemma MoveKeeps(s: State, t: Turn, point: AcceptPoint)
    requires Inv(s) && t in s.accepts && s.accepts[t].point != AwaitingStart && point != AwaitingStart
    requires HoldsAcceptLock(s.accepts[t].point) == HoldsAcceptLock(point)
    requires Accepting(MoveTo(s, t, point), t) && Priority(MoveTo(s, t, point), t)
    ensures Inv(MoveTo(s, t, point))
  {
    hide At;
    var n := MoveTo(s, t, point);
    MoveAt(s, t, point);
    forall u: Turn ensures At(n, u) {
      if u != t {
        Untouched(s, n, u);
      }
    }
  }

  lemma ProactiveJoinKeeps(s: State, t: Turn)
    requires Inv(s) && CanLeaveProactiveJoin(s, t)
    ensures Inv(AfterProactiveJoin(s, t))
  {
    assert At(s, t);
    var m := s;
    if s.accepts[t].point.task.Some? {
      ClearTaskKeeps(s, s.accepts[t].point.task.value);
      m := ClearTask(s, s.accepts[t].point.task.value);
    }
    MoveKeeps(m, t, Signalling);
  }

  lemma SignalOldKeeps(s: State, t: Turn)
    requires Inv(s) && CanSignalOld(s, t)
    ensures Inv(AfterSignalOld(s, t))
  {
    assert At(s, t);
    SignalActiveKeeps(s);
    var m := SignalActive(s);
    assert At(m, t);
    MoveKeeps(m, t, if TaskToJoin(s).Some? then JoiningOld(TaskToJoin(s).value) else Registering);
  }

  lemma OldJoinKeeps(s: State, t: Turn)
    requires Inv(s) && CanLeaveOldJoin(s, t)
    ensures Inv(MoveTo(s, t, Registering))
  {
    assert At(s, t);
    assert At(s, s.accepts[t].point.run);
    MoveKeeps(s, t, Registering);
  }

  function GiveUp(s: State, t: Turn): State
    requires t in s.accepts
  {
    Return(if HoldsAcceptLock(s.accepts[t].point) then ReleaseAcceptLock(s) else s, t)
  }

  lemma GiveUpAt(s: State, t: Turn)
    requires At(s, t) && t in s.accepts && s.accepts[t].point != AwaitingStart && !Live(s, t) && !IsActive(s, t)
    ensures At(GiveUp(s, t), t)
    ensures HoldsAcceptLock(s.accepts[t].point) ==> s.control.acceptLock == Some(t)
  {
  }

  /** Giving up the user priority and, if held, the accept lock. */
  lemma ReturnKeeps(s: State, t: Turn)
    requires Inv(s) && t in s.accepts && s.accepts[t].point != AwaitingStart && !Live(s, t) && !IsActive(s, t)
    ensures Inv(GiveUp(s, t))
  {
    hide At;
    var n := GiveUp(s, t);
    GiveUpAt(s, t);
    forall u: Turn ensures At(n, u) {
      if u != t {
        Untouched(s, n, u);
      }
    }
  }

  lemma RegisterAt(s: State, t: Turn)
    requires ActiveOk(s) && LocksOk(s) && At(s, t) && CanRegister(s, t) && !s.service.closed
    ensures At(AfterRegister(s, t), t)
    ensures s.service.active.None? && s.control.acceptLock == Some(t)
  {
    assert AfterRegister(s, t).log == s.log + [Event(IsAccepted, User, t)];
  }

  lemma RegisterRest(s: State, t: Turn, u: Turn)
    requires ActiveOk(s) && LocksOk(s) && Orderly(s.log) && CanRegister(s, t) && !s.service.closed
    requires s.service.active.None? && s.control.acceptLock == Some(t)
    ensures var n := AfterRegister(s, t);
            ActiveOk(n) && LocksOk(n) && Orderly(n.log) && (u != t ==> SameFor(s, n, u))
  {
    Append(s.log, Event(IsAccepted, User, t));
  }

  lemma RegisterKeeps(s: State, t: Turn)
    requires Inv(s) && CanRegister(s, t)
    ensures Inv(AfterRegister(s, t))
  {
    hide At, ActiveOk, LocksOk, Orderly, AfterRegister, SameFor;
    if s.service.closed {
      RejectKeeps(s, t);
    } else {
      var n := AfterRegister(s, t);
      RegisterAt(s, t);
      RegisterRest(s, t, t);
      forall u: Turn ensures At(n, u) {
        if u != t {
          RegisterRest(s, t, u);
          Untouched(s, n, u);
        }
      }
    }
  }

  lemma RejectKeeps(s: State, t: Turn)
    requires Inv(s) && CanRegister(s, t) && s.service.closed
    ensures Inv(AfterRegister(s, t))
  {
    assert At(s, t);
    ReturnKeeps(s, t);
  }

  lemma StartKeeps(s: State, t: Turn)
    requires Inv(s) && CanStart(s, t)
    ensures Inv(AfterStart(s, t))
  {
    assert At(s, t);
    if MayRun(s, t) {
      var n := AfterStart(s, t);
      assert At(n, t);
      forall u: Turn ensures At(n, u) {
        if u != t {
          assert At(s, u);
          Untouched(s, n, u);
        }
      }
    } else {
      ClearOfOther(s, t);
      ReturnKeeps(s, t);
    }
  }

  /** The accept call gets on after its run has started, normally or by a cancellation. */
  lemma LeaveStartKeeps(s: State, t: Turn, point: AcceptPoint)
    requires Inv(s) && CanFinishStart(s, t) && (point == Returned || point == CancellingOwn)
    ensures Inv(MoveTo(s.(control := s.control.(coordinationLock := None)), t, point))
  {
    var n := MoveTo(s.(control := s.control.(coordinationLock := None)), t, point);
    assert At(s, t);
    assert At(n, t);
    forall u: Turn ensures At(n, u) {
      if u != t {
        assert At(s, u);
        Untouched(s, n, u);
      }
    }
  }

  lemma AbortKeeps(s: State, t: Turn)
    requires Inv(s) && CanAbort(s, t)
    ensures Inv(AfterAbort(s, t))
  {
    assert At(s, t);
    match s.accepts[t].point
    case WaitingForLock =>
      assert s.lifecycle.users - {t} == s.lifecycle.users;
      ReturnKeeps(s, t);
    case Observing => MoveKeeps(s, t, CancellingOwn);
    case AwaitingStart => LeaveStartKeeps(s, t, CancellingOwn);
    case _ => ReturnKeeps(s, t);
  }

  lemma CancelRegisteredKeeps(s: State, t: Turn)
    requires Inv(s)
    ensures Inv(CancelRegistered(s, t))
  {
    assert At(s, t);
    SignalActiveKeeps(s);
  }

  lemma CancelOwnKeeps(s: State, t: Turn)
    requires Inv(s) && CanCancelOwn(s, t)
    ensures Inv(AfterCancelOwn(s, t))
  {
    assert At(s, t);
    SignalActiveKeeps(s);
    CancelRegisteredKeeps(s, t);
    var m := CancelRegistered(s, t);
    assert At(m, t);
    if IsActive(s, t) && TaskToJoin(s).Some? {
      MoveKeeps(m, t, JoiningOwn);
    } else {
      ReturnKeeps(m, t);
    }
  }

  lemma OwnJoinKeeps(s: State, t: Turn)
    requires Inv(s) && CanLeaveOwnJoin(s, t)
    ensures Inv(Return(s, t))
  {
    assert At(s, t);
    ReturnKeeps(s, t);
  }

  // ----- Run tasks -----

  lemma RunUserKeeps(s: State, t: Turn)
    requires Inv(s) && CanRunUser(s, t)
    ensures Inv(AfterRunUser(s, t))
  {
    var n := AfterRunUser(s, t);
    assert At(s, t);
    assert At(n, t);
    forall u: Turn ensures At(n, u) {
      if u != t {
        assert At(s, u);
        Untouched(s, n, u);
      }
    }
  }

  lemma EmitKeeps(s: State, t: Turn)
    requires Inv(s) && CanEmit(s, t)
    ensures Inv(Publish(s, FromPipeline, t))
  {
    var n := Publish(s, FromPipeline, t);
    assert At(s, t);
    Append(s.log, Event(FromPipeline, OriginOf(s, t), t));
    forall u: Turn ensures At(n, u) {
      assert At(s, u);
    }
  }

  lemma EndUserAt(s: State, t: Turn, ending: Ending)
    requires ActiveOk(s) && LocksOk(s) && At(s, t) && CanEnd(s, t, ending) && t in s.accepts
    ensures At(AfterEnd(s, t, ending), t)
  {
  }

  lemma EndProactiveAt(s: State, t: Turn, ending: Ending)
    requires ActiveOk(s) && LocksOk(s) && At(s, t) && CanEnd(s, t, ending) && t !in s.accepts
    ensures At(AfterEnd(s, t, ending), t)
  {
  }

  lemma CommitLog(s: State, t: Turn, ending: Ending)
    requires Orderly(s.log) && LastAccepted(s.log) == Some(t)
    ensures var n := Commit(s, t, ending); Orderly(n.log) && forall u: Turn | u != t :: LogSameFor(s.log, n.log, u)
  {
    Append(s.log, Event(IsCancelled, OriginOf(s, t), t));
    Append(s.log, Event(IsFailed, OriginOf(s, t), t));
    Append(s.log, Event(IsCompleted, OriginOf(s, t), t));
  }

  /** An ending turn is the active one, and the only one that was accepted last. */
  lemma EndingTurn(s: State, t: Turn)
    requires ActiveOk(s) && LocksOk(s) && At(s, t) && RunIs(s, t, Running)
    ensures IsActive(s, t) && t in s.service.states && LastAccepted(s.log) == Some(t)
    ensures s.service.sessionTurn == map[SessionOf(s, t) := t]
    ensures t !in s.accepts ==> s.lifecycle.task == Some(t)
    ensures t in s.accepts ==> s.lifecycle.task != Some(t)
  {
  }

  /** What the end of a run leaves for every other turn. */
  ghost predicate Ended(s: State, n: State, t: Turn)
    requires t in s.runs
  {
    && n.accepts == s.accepts && n.control == s.control && n.runs == s.runs[t := s.runs[t].(phase := Done)]
    && n.service.active.None? && n.service.closed == s.service.closed
    && (forall u: Turn :: u != t ==> StatusOf(s, u) == StatusOf(n, u))
    && (forall u: Turn :: u != t ==> (u in s.service.finalizing <==> u in n.service.finalizing))
    && n.lifecycle.users == (if t in s.accepts then s.lifecycle.users - {t} else s.lifecycle.users)
    && n.lifecycle.closed == s.lifecycle.closed
    && (if t in s.accepts
        then n.lifecycle.task == s.lifecycle.task && n.lifecycle.cancellationStarted == s.lifecycle.cancellationStarted
        else n.lifecycle.task == None)
  }

  lemma CommitEffects(s: State, t: Turn, ending: Ending)
    requires IsActive(s, t) && t in s.service.states && s.service.sessionTurn == map[SessionOf(s, t) := t]
    ensures var n := Commit(s, t, ending);
            && n.accepts == s.accepts && n.control == s.control && n.runs == s.runs && n.lifecycle == s.lifecycle
            && n.service.active.None? && n.service.sessionTurn == map[] && n.service.closed == s.service.closed
            && (forall u: Turn :: u != t ==> StatusOf(s, u) == StatusOf(n, u))
            && (forall u: Turn :: u != t ==> (u in s.service.finalizing <==> u in n.service.finalizing))
  {
  }

  lemma EndEffects(s: State, t: Turn, ending: Ending)
    requires CanEnd(s, t, ending) && IsActive(s, t)
    requires t in s.service.states && s.service.sessionTurn == map[SessionOf(s, t) := t]
    requires t !in s.accepts ==> s.lifecycle.task == Some(t)
    ensures Ended(s, AfterEnd(s, t, ending), t) && AfterEnd(s, t, ending).service == Commit(s, t, ending).service
  {
    hide Commit, StatusOf;
    CommitEffects(s, t, ending);
    var n := AfterEnd(s, t, ending);
    assert n.service == Commit(s, t, ending).service;
    forall u: Turn | u != t ensures StatusOf(s, u) == StatusOf(n, u) {
      SameStatus(Commit(s, t, ending), n, u);
    }
  }

  lemma SameStatus(s: State, n: State, u: Turn)
    requires s.service == n.service
    ensures StatusOf(s, u) == StatusOf(n, u)
  {
  }

  lemma EndGlobals(s: State, t: Turn, ending: Ending)
    requires LocksOk(s) && Orderly(s.log) && CanEnd(s, t, ending)
    requires IsActive(s, t) && t in s.service.states && LastAccepted(s.log) == Some(t)
    requires s.service.sessionTurn == map[SessionOf(s, t) := t]
    requires t !in s.accepts ==> s.lifecycle.task == Some(t)
    ensures var n := AfterEnd(s, t, ending); ActiveOk(n) && LocksOk(n) && Orderly(n.log)
    ensures forall u: Turn | u != t :: LogSameFor(s.log, AfterEnd(s, t, ending).log, u)
  {
    hide Orderly, LastAccepted, LogSameFor, Commit, StatusOf;
    CommitLog(s, t, ending);
    CommitEffects(s, t, ending);
    assert AfterEnd(s, t, ending).log == Commit(s, t, ending).log;
  }

  lemma EndSameFor(s: State, n: State, t: Turn, u: Turn)
    requires t in s.runs && Ended(s, n, t) && IsActive(s, t) && u != t && LogSameFor(s.log, n.log, u)
    requires t !in s.accepts ==> s.lifecycle.task == Some(t)
    requires t in s.accepts ==> s.lifecycle.task != Some(t)
    ensures SameFor(s, n, u)
  {
    hide LogSameFor;
  }

  lemma EndKeeps(s: State, t: Turn, ending: Ending)
    requires Inv(s) && CanEnd(s, t, ending)
    ensures Inv(AfterEnd(s, t, ending))
  {
    hide At, ActiveOk, LocksOk, Orderly, AfterEnd, SameFor, Ended, LogSameFor;
    var n := AfterEnd(s, t, ending);
    if t in s.accepts {
      EndUserAt(s, t, ending);
    } else {
      EndProactiveAt(s, t, ending);
    }
    EndingTurn(s, t);
    EndEffects(s, t, ending);
    EndGlobals(s, t, ending);
    forall u: Turn ensures At(n, u) {
      if u != t {
        EndSameFor(s, n, t, u);
        Untouched(s, n, u);
      }
    }
  }

  lemma FinalizeKeeps(s: State, t: Turn)
    requires Inv(s) && CanFinalize(s, t)
    ensures Inv(AfterFinalize(s, t))
  {
    var n := AfterFinalize(s, t);
    assert At(s, t);
    Append(s.log, Event(IsCompleted, User, t));
    assert At(n, t);
    forall u: Turn ensures At(n, u) {
      if u != t {
        assert At(s, u);
        Untouched(s, n, u);
      }
    }
  }

  // ----- Proactive runs -----

  lemma TryStartKeeps(s: State, t: Turn)
    requires Inv(s) && CanTryStart(s, t)
    ensures Inv(AfterTryStart(s, t))
  {
    var n := AfterTryStart(s, t);
    assert At(s, t);
    assert At(n, t);
    forall u: Turn ensures At(n, u) {
      assert At(s, u);
    }
  }

  lemma RegisterProactiveAt(s: State, t: Turn)
    requires ActiveOk(s) && LocksOk(s) && At(s, t) && CanRegisterProactive(s, t)
    ensures At(AfterRegisterProactive(s, t), t)
    ensures s.lifecycle.task == Some(t)
  {
  }

  lemma RegisterProactiveRest(s: State, t: Turn, u: Turn)
    requires ActiveOk(s) && LocksOk(s) && Orderly(s.log) && CanRegisterProactive(s, t) && s.lifecycle.task == Some(t)
    requires u !in s.lifecycle.users && s.control.acceptLock != Some(u)
    ensures var n := AfterRegisterProactive(s, t);
            ActiveOk(n) && LocksOk(n) && Orderly(n.log) && (u != t ==> SameFor(s, n, u))
  {
    Append(s.log, Event(IsAccepted, Proactive, t));
  }

  lemma NoUsers(s: State, t: Turn, u: Turn)
    requires Inv(s) && CanRegisterProactive(s, t)
    ensures u !in s.lifecycle.users && s.control.acceptLock != Some(u)
  {
    assert At(s, t);
    assert At(s, u);
  }

  lemma RegisterProactiveKeeps(s: State, t: Turn)
    requires Inv(s) && CanRegisterProactive(s, t)
    ensures Inv(AfterRegisterProactive(s, t))
  {
    hide At, ActiveOk, LocksOk, Orderly, AfterRegisterProactive, SameFor;
    var n := AfterRegisterProactive(s, t);
    RegisterProactiveAt(s, t);
    forall u: Turn ensures At(n, u) && ActiveOk(n) && LocksOk(n) && Orderly(n.log) {
      NoUsers(s, t, u);
      RegisterProactiveRest(s, t, u);
      if u != t {
        Untouched(s, n, u);
      }
    }
  }

  lemma CancelBeforeRunKeeps(s: State, t: Turn, entered: bool)
    requires Inv(s) && CanCancelBeforeRun(s, t)
    ensures Inv(AfterCancelBeforeRun(s, t, entered))
  {
    var n := AfterCancelBeforeRun(s, t, entered);
    assert At(s, t);
    assert At(n, t);
    forall u: Turn ensures At(n, u) {
      if u != t {
        assert At(s, u);
        Untouched(s, n, u);
      }
    }
  }

  lemma CloseLifecycleKeeps(s: State)
    requires Inv(s)
    ensures Inv(s.(lifecycle := s.lifecycle.(closed := true)))
  {
    forall u: Turn ensures At(s.(lifecycle := s.lifecycle.(closed := true)), u) {
      assert At(s, u);
    }
  }

  // ----- shutdown -----

  function CloseService(s: State, waiting: set<Turn>): State {
    s.(service := s.service.(closed := true), control := s.control.(shutdown := DrainingAccepts(waiting)))
  }

  lemma CloseServiceAt(s: State, waiting: set<Turn>, u: Turn)
    requires At(s, u) && s.control.shutdown.NotStarted?
    requires IsActive(s, u) ==> Live(s, u)
    ensures At(CloseService(s, waiting), u)
  {
  }

  lemma ShutDownKeeps(s: State)
    requires Inv(s) && CanShutDown(s)
    ensures Inv(AfterShutDown(s))
  {
    hide At, SignalActive, Orderly;
    SignalActiveKeeps(s);
    var m := SignalActive(s);
    var waiting := set t | t in s.accepts && s.accepts[t].point != Returned;
    assert AfterShutDown(s) == CloseService(m, waiting);
    forall u: Turn ensures At(CloseService(m, waiting), u) {
      CloseServiceAt(m, waiting, u);
    }
  }

  lemma DrainKeeps(s: State)
    requires Inv(s) && CanDrain(s)
    ensures Inv(AfterDrain(s))
  {
    var n := AfterDrain(s);
    forall u: Turn ensures At(n, u) {
      assert At(s, u);
    }
  }

  // ----- Every run -----

  /** Every action keeps the invariant. */
  lemma StepKeeps(s: State, a: Action)
    requires Inv(s) && Enabled(s, a)
    ensures Inv(Do(s, a))
  {
    hide Inv, At;
    match a
    case CallAccept(t, session) => CallAcceptKeeps(s, t, session);
    case Acquire(t) => AcquireKeeps(s, t);
    case LeaveProactiveJoin(t) => ProactiveJoinKeeps(s, t);
    case SignalOld(t) => SignalOldKeeps(s, t);
    case LeaveOldJoin(t) => OldJoinKeeps(s, t);
    case Register(t) => RegisterKeeps(s, t);
    case Start(t) => StartKeeps(s, t);
    case FinishStart(t) => LeaveStartKeeps(s, t, Returned);
    case Abort(t) => AbortKeeps(s, t);
    case CancelOwn(t) => CancelOwnKeeps(s, t);
    case LeaveOwnJoin(t) => OwnJoinKeeps(s, t);
    case RunUser(t) => RunUserKeeps(s, t);
    case EmitEvent(t) => EmitKeeps(s, t);
    case EndRun(t, ending) => EndKeeps(s, t, ending);
    case Finalize(t) => FinalizeKeeps(s, t);
    case TryStart(t) => TryStartKeeps(s, t);
    case RegisterProactive(t) => RegisterProactiveKeeps(s, t);
    case CancelBeforeRun(t, entered) => CancelBeforeRunKeeps(s, t, entered);
    case ForgetTask => ClearTaskKeeps(s, s.lifecycle.task.value);
    case CancelActive => SignalLifecycleKeeps(s);
    case CloseLifecycle => CloseLifecycleKeeps(s); SignalLifecycleKeeps(s.(lifecycle := s.lifecycle.(closed := true)));
    case CancelTurn(t) => CancelRegisteredKeeps(s, t);
    case ShutDown => ShutDownKeeps(s);
    case Drain => DrainKeeps(s);
  }
}
