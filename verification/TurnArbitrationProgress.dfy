/** How often a run is cancelled, and that accept calls and shutdown cannot block each other for ever. */
module TurnArbitrationProgress {
  import opened Options
  import opened TurnArbitration
  import opened TurnArbitrationProofs
  import opened TurnArbitrationResults

  // ----- Cancellation counts -----

  function Cancellations(s: State, t: Turn): nat {
    if t in s.runs then s.runs[t].byService + s.runs[t].byLifecycle else 0
  }

  /** Each side cancels a run at most once, and the run of a user turn is cancelled by the service only. */
  lemma CancellationsPerSide(run: seq<State>, i: nat, t: Turn)
    requires IsRun(run) && i < |run| && t in run[i].runs
    ensures run[i].runs[t].byService <= 1 && run[i].runs[t].byLifecycle <= 1
    ensures t in run[i].accepts ==> Cancellations(run[i], t) <= 1
  {
    RunInv(run, i);
    assert At(run[i], t);
  }

  /** The lifecycle has not cancelled its live task, but the service has. */
  predicate CancelledByServiceOnly(s: State) {
    ProactiveLive(s) && !s.lifecycle.cancellationStarted && s.runs[s.lifecycle.task.value].token
  }

  predicate SignalsLifecycle(a: Action) {
    a.Acquire? || a.CancelActive? || a.CloseLifecycle?
  }

  ghost predicate CancelledOnce(s: State) {
    forall t: Turn :: Cancellations(s, t) <= 1
  }

  lemma LifecycleCancels(s: State)
    requires Inv(s) && CancelledOnce(s)
    ensures CancelledOnce(SignalLifecycle(s)) <==> !CancelledByServiceOnly(s)
    ensures CancelledByServiceOnly(s) ==> Cancellations(SignalLifecycle(s), s.lifecycle.task.value) == 2
  {
    var n := SignalLifecycle(s);
    if s.lifecycle.task.Some? {
      var p := s.lifecycle.task.value;
      assert At(s, p);
      assert Cancellations(s, p) <= 1;
      assert CancelledByServiceOnly(s) ==> Cancellations(n, p) == 2;
    }
    if !CancelledByServiceOnly(s) {
      forall t: Turn ensures Cancellations(n, t) <= 1 {
        LifecycleCancelsOnce(s, t);
      }
    }
  }

  lemma LifecycleCancelsOnce(s: State, t: Turn)
    requires Inv(s) && Cancellations(s, t) <= 1 && !CancelledByServiceOnly(s)
    ensures Cancellations(SignalLifecycle(s), t) <= 1
  {
    assert At(s, t);
  }

  lemma ServiceCancels(s: State)
    requires Inv(s) && CancelledOnce(s)
    ensures CancelledOnce(SignalActive(s))
  {
    var n := SignalActive(s);
    if s.service.active.Some? {
      var p := s.service.active.value.turn;
      assert At(s, p);
      forall t: Turn ensures Cancellations(n, t) <= 1 {
        assert Cancellations(s, t) <= 1;
      }
    }
  }

  lemma SameCancellations(s: State, n: State)
    requires CancelledOnce(s)
    requires forall t: Turn :: Cancellations(n, t) <= Cancellations(s, t)
    ensures CancelledOnce(n)
  {
    forall t: Turn ensures Cancellations(n, t) <= 1 {
      assert Cancellations(s, t) <= 1;
    }
  }

  lemma OtherAction(s: State, a: Action, t: Turn)
    requires Inv(s) && Enabled(s, a) && !SignalsLifecycle(a)
    requires !a.SignalOld? && !a.CancelOwn? && !a.CancelTurn? && !a.ShutDown?
    ensures Cancellations(Do(s, a), t) <= Cancellations(s, t)
  {
  }

  lemma ServiceAction(s: State, a: Action)
    requires Inv(s) && Enabled(s, a) && CancelledOnce(s) && (a.SignalOld? || a.CancelOwn? || a.CancelTurn? || a.ShutDown?)
    ensures CancelledOnce(Do(s, a))
  {
    hide Inv, CancelledOnce, SignalActive, CancelRegistered;
    ServiceCancels(s);
    if a.CancelOwn? {
      CancelOwnRuns(s, a.turn);
    } else if a.CancelTurn? {
      CancelRegisteredRuns(s, a.turn);
    } else {
      SameRuns(SignalActive(s), Do(s, a));
    }
  }

  /** An action leads to a second cancellation exactly when it makes the lifecycle signal a live task that
      the service has signalled before. */
  lemma SecondCancellation(s: State, a: Action)
    requires Inv(s) && Enabled(s, a) && CancelledOnce(s)
    ensures CancelledOnce(Do(s, a)) <==> !(SignalsLifecycle(a) && CancelledByServiceOnly(s))
  {
    hide Inv, CancelledOnce, Cancellations, SignalActive, SignalLifecycle, CancelledByServiceOnly;
    match a
    case Acquire(t) => AcquireCancels(s, t);
    case CancelActive => LifecycleCancels(s);
    case CloseLifecycle => CloseCancels(s);
    case SignalOld(t) => ServiceAction(s, a);
    case CancelOwn(t) => ServiceAction(s, a);
    case CancelTurn(t) => ServiceAction(s, a);
    case ShutDown => ServiceAction(s, a);
    case _ =>
      hide Do, Enabled;
      forall t: Turn ensures Cancellations(Do(s, a), t) <= Cancellations(s, t) {
        OtherAction(s, a, t);
      }
      SameCancellations(s, Do(s, a));
  }

  lemma SameRuns(s: State, n: State)
    requires s.runs == n.runs
    ensures CancelledOnce(s) <==> CancelledOnce(n)
  {
    forall t: Turn ensures Cancellations(s, t) == Cancellations(n, t) {
    }
  }

  lemma CancelRegisteredRuns(s: State, t: Turn)
    requires CancelledOnce(s) && CancelledOnce(SignalActive(s))
    ensures CancelledOnce(CancelRegistered(s, t))
  {
    hide CancelledOnce, SignalActive;
    if t in s.service.states && !Terminal(s.service.states[t]) && !IsActive(s, t) {
      SameRuns(s, CancelImmediately(s, t));
    }
  }

  lemma CancelOwnRuns(s: State, t: Turn)
    requires CanCancelOwn(s, t) && CancelledOnce(s) && CancelledOnce(SignalActive(s))
    ensures CancelledOnce(AfterCancelOwn(s, t))
  {
    hide CancelledOnce, CancelRegistered;
    CancelRegisteredRuns(s, t);
    SameRuns(CancelRegistered(s, t), AfterCancelOwn(s, t));
  }

  lemma AcquireCancels(s: State, t: Turn)
    requires Inv(s) && CanAcquire(s, t) && CancelledOnce(s)
    ensures CancelledOnce(AfterAcquire(s, t)) <==> !CancelledByServiceOnly(s)
  {
    hide CancelledOnce;
    LifecycleCancels(s);
    SameRuns(SignalLifecycle(s), AfterAcquire(s, t));
  }

  lemma CloseCancels(s: State)
    requires Inv(s) && CancelledOnce(s)
    ensures CancelledOnce(Do(s, CloseLifecycle)) <==> !CancelledByServiceOnly(s)
  {
    hide CancelledOnce;
    LifecycleCancels(s);
    SameRuns(SignalLifecycle(s), Do(s, CloseLifecycle));
  }

  /** The run of a proactive turn can be cancelled twice: by `cancel` on its turn and, before it has
      ended, by the lifecycle.  So not every cancellation is one-shot. */
  lemma ProactiveRunCancelledTwice() returns (run: seq<State>)
    ensures IsRun(run) && Cancellations(run[|run| - 1], 0) == 2
  {
    FirstSteps();
    ThirdStep();
    FourthStep();
    run := [INITIAL, TRY_STARTED, RegisteredProactive(false, 0, false), RegisteredProactive(true, 0, false),
            RegisteredProactive(true, 1, true)];
  }

  const TRY_STARTED: State := State(
    Service(map[], map[], None, {}, false), Control(None, None, NotStarted), Lifecycle({}, Some(0), false, false),
    map[0 := Run(Created, false, 0, 0)], map[], [])

  /** Turn 0 is a proactive one at work, cancelled by the service or not. */
  function RegisteredProactive(cancelled: bool, byLifecycle: nat, signalled: bool): State {
    State(
      Service(map[0 := Streaming], map[LOCAL_SESSION := 0], Some(Active(0, Proactive, true, cancelled)), {}, false),
      Control(None, None, NotStarted), Lifecycle({}, Some(0), signalled, false),
      map[0 := Run(Running, cancelled, if cancelled then 1 else 0, byLifecycle)], map[], [Event(IsAccepted, Proactive, 0)])
  }

  lemma FirstSteps()
    ensures Step(INITIAL, TRY_STARTED) && Step(TRY_STARTED, RegisteredProactive(false, 0, false))
  {
    assert Enabled(INITIAL, TryStart(0)) && Do(INITIAL, TryStart(0)) == TRY_STARTED;
    assert Enabled(TRY_STARTED, RegisterProactive(0));
    assert Do(TRY_STARTED, RegisterProactive(0)) == RegisteredProactive(false, 0, false);
  }

  lemma ThirdStep()
    ensures Step(RegisteredProactive(false, 0, false), RegisteredProactive(true, 0, false))
  {
    assert Enabled(RegisteredProactive(false, 0, false), CancelTurn(0));
    assert Do(RegisteredProactive(false, 0, false), CancelTurn(0)) == RegisteredProactive(true, 0, false);
  }

  lemma FourthStep()
    ensures Step(RegisteredProactive(true, 0, false), RegisteredProactive(true, 1, true))
  {
    assert Enabled(RegisteredProactive(true, 0, false), CancelActive);
    assert Do(RegisteredProactive(true, 0, false), CancelActive) == RegisteredProactive(true, 1, true);
  }

  // ----- Progress -----

  /** Actions the system takes by itself, once the pipeline lets a run end. */
  predicate Internal(a: Action) {
    match a
    case CallAccept(_, _) => false
    case Abort(_) => false
    case EmitEvent(_) => false
    case TryStart(_) => false
    case ForgetTask => false
    case CancelActive => false
    case CloseLifecycle => false
    case CancelTurn(_) => false
    case ShutDown => false
    case _ => true
  }

  ghost predicate CanProgress(s: State) {
    exists a :: Internal(a) && Enabled(s, a)
  }

  lemma LiveRunMoves(s: State, t: Turn)
    requires Live(s, t) && s.control.coordinationLock.None?
    ensures CanProgress(s)
  {
    var a :=
      if s.runs[t].phase == Running then EndRun(t, IsInterrupted)
      else if t in s.accepts then RunUser(t)
      else if s.runs[t].token then CancelBeforeRun(t, true)
      else RegisterProactive(t);
    assert Enabled(s, a);
  }

  lemma StartingCallMoves(s: State, t: Turn)
    requires Inv(s) && s.control.coordinationLock == Some(t)
    ensures CanProgress(s)
  {
    assert At(s, t);
    var a := if s.runs[t].phase == Created then RunUser(t) else FinishStart(t);
    assert Enabled(s, a);
  }

  lemma HolderMoves(s: State, t: Turn)
    requires At(s, t) && t in s.accepts && HoldsAcceptLock(s.accepts[t].point) && s.control.coordinationLock.None?
    ensures CanProgress(s)
  {
    match s.accepts[t].point
    case JoiningProactive(p) =>
      if p.Some? && Live(s, p.value) {
        LiveRunMoves(s, p.value);
      } else {
        assert Enabled(s, LeaveProactiveJoin(t));
      }
    case Signalling => assert Enabled(s, SignalOld(t));
    case JoiningOld(run) =>
      if Live(s, run) {
        LiveRunMoves(s, run);
      } else {
        assert Enabled(s, LeaveOldJoin(t));
      }
    case Registering => assert Enabled(s, Register(t));
  }

  lemma CallMoves(s: State, t: Turn)
    requires Inv(s) && t in s.accepts && s.accepts[t].point != Returned
    ensures CanProgress(s)
  {
    assert At(s, t);
    if s.control.coordinationLock.Some? {
      StartingCallMoves(s, s.control.coordinationLock.value);
    } else if s.control.acceptLock.Some? {
      var holder := s.control.acceptLock.value;
      assert At(s, holder);
      HolderMoves(s, holder);
    } else {
      FreeCallMoves(s, t);
    }
  }

  lemma FreeCallMoves(s: State, t: Turn)
    requires At(s, t) && t in s.accepts && s.accepts[t].point != Returned
    requires s.control.coordinationLock.None? && s.control.acceptLock.None?
    ensures CanProgress(s)
  {
    match s.accepts[t].point
    case WaitingForLock => assert Enabled(s, Acquire(t));
    case Observing => assert Enabled(s, Start(t));
    case CancellingOwn => assert Enabled(s, CancelOwn(t));
    case JoiningOwn =>
      if Live(s, t) {
        LiveRunMoves(s, t);
      } else {
        assert Enabled(s, LeaveOwnJoin(t));
      }
    case _ => assert false;
  }

  /** No accept call is under way, no run is live, nothing is left to publish, no drain is waiting. */
  ghost predicate AtRest(s: State) {
    && (forall t: Turn :: t in s.accepts ==> s.accepts[t].point == Returned)
    && (forall t: Turn :: !Live(s, t))
    && s.service.finalizing == {}
    && (s.control.shutdown.NotStarted? || s.control.shutdown.PipelineClosed?)
  }

  /** Arbitration never deadlocks: whenever no internal action is possible, all work is done. */
  lemma NoDeadlock(run: seq<State>, i: nat)
    requires IsRun(run) && i < |run|
    ensures CanProgress(run[i]) || AtRest(run[i])
  {
    RunInv(run, i);
    var s := run[i];
    if t: Turn :| t in s.accepts && s.accepts[t].point != Returned {
      CallMoves(s, t);
    } else if t: Turn :| Live(s, t) {
      if s.control.coordinationLock.Some? {
        StartingCallMoves(s, s.control.coordinationLock.value);
      } else {
        LiveRunMoves(s, t);
      }
    } else if t: Turn :| t in s.service.finalizing {
      assert Enabled(s, Finalize(t));
    } else if !AtRest(s) {
      assert Enabled(s, Drain);
    }
  }

  // ----- A measure -----

  function AcceptRank(point: AcceptPoint): nat {
    match point
    case WaitingForLock => 9
    case JoiningProactive(_) => 8
    case Signalling => 7
    case JoiningOld(_) => 6
    case Registering => 5
    case Observing => 4
    case AwaitingStart => 3
    case CancellingOwn => 2
    case JoiningOwn => 1
    case Returned => 0
  }

  function RunRank(phase: RunPhase): nat {
    match phase
    case Created => 3
    case Running => 2
    case Done => 0
  }

  /** The steps `t` can still take. */
  function Rank(s: State, t: Turn): nat {
    (if t in s.accepts then AcceptRank(s.accepts[t].point) else 0)
    + (if t in s.runs then RunRank(s.runs[t].phase) else 4)
    + (if t in s.service.finalizing then 1 else 0)
  }

  function DrainRank(shutdown: Shutdown): nat {
    match shutdown
    case NotStarted => 0
    case DrainingAccepts(_) => 3
    case DrainingRuns(_) => 2
    case DrainingPosts(_) => 1
    case PipelineClosed => 0
  }

  ghost function Total(s: State, turns: set<Turn>): nat {
    if turns == {} then 0
    else
      var t :| t in turns;
      Rank(s, t) + Total(s, turns - {t})
  }

  lemma {:induction false} TotalWithout(s: State, turns: set<Turn>, t: Turn)
    requires t in turns
    ensures Total(s, turns) == Rank(s, t) + Total(s, turns - {t})
  {
    var first :| first in turns && Total(s, turns) == Rank(s, first) + Total(s, turns - {first});
    if first != t {
      TotalWithout(s, turns - {first}, t);
      TotalWithout(s, turns - {t}, first);
      assert turns - {first} - {t} == turns - {t} - {first};
    }
  }

  lemma {:induction false} SameTotal(s: State, n: State, turns: set<Turn>)
    requires forall t :: t in turns ==> Rank(n, t) == Rank(s, t)
    ensures Total(n, turns) == Total(s, turns)
  {
    if turns != {} {
      var t :| t in turns;
      TotalWithout(s, turns, t);
      TotalWithout(n, turns, t);
      SameTotal(s, n, turns - {t});
    }
  }

  function Turns(s: State): set<Turn> {
    s.accepts.Keys + s.runs.Keys
  }

  /** The work still to be done on the turns that exist. */
  ghost function Work(s: State): nat {
    Total(s, Turns(s)) + DrainRank(s.control.shutdown)
  }

  /** Signalling ends no run and moves no call. */
  lemma SignalRank(s: State, u: Turn)
    ensures var n := SignalActive(s);
            n.accepts == s.accepts && n.runs.Keys == s.runs.Keys && n.control == s.control && Rank(n, u) == Rank(s, u)
  {
  }

  lemma LifecycleRank(s: State, u: Turn)
    ensures var n := SignalLifecycle(s);
            n.accepts == s.accepts && n.runs.Keys == s.runs.Keys && n.control == s.control && Rank(n, u) == Rank(s, u)
  {
  }

  /** From `s` to `n` the turn `t` has come a step nearer to its end, and nothing has changed for `u`. */
  predicate Falls(s: State, n: State, t: Turn, u: Turn) {
    && Turns(n) == Turns(s) && t in Turns(s) && n.control.shutdown == s.control.shutdown
    && (if u == t then Rank(n, u) < Rank(s, u) else Rank(n, u) == Rank(s, u))
  }

  lemma MoveFalls(s: State, t: Turn, point: AcceptPoint, u: Turn)
    requires t in s.accepts && AcceptRank(point) < AcceptRank(s.accepts[t].point)
    ensures Falls(s, MoveTo(s, t, point), t, u)
  {
  }

  lemma FallsAfter(s: State, m: State, n: State, t: Turn, u: Turn)
    requires Turns(m) == Turns(s) && m.control.shutdown == s.control.shutdown
    requires Rank(m, t) == Rank(s, t) && Rank(m, u) == Rank(s, u) && Falls(m, n, t, u)
    ensures Falls(s, n, t, u)
  {
  }

  lemma AcquireFalls(s: State, t: Turn, u: Turn)
    requires CanAcquire(s, t)
    ensures Falls(s, AfterAcquire(s, t), t, u)
  {
    hide SignalLifecycle;
    var m := s.(control := s.control.(acceptLock := Some(t)), lifecycle := s.lifecycle.(users := s.lifecycle.users + {t}));
    LifecycleRank(m, u);
    LifecycleRank(m, t);
    MoveFalls(SignalLifecycle(m), t, JoiningProactive(s.lifecycle.task), u);
    FallsAfter(s, SignalLifecycle(m), AfterAcquire(s, t), t, u);
  }

  lemma SignalOldFalls(s: State, t: Turn, u: Turn)
    requires CanSignalOld(s, t)
    ensures Falls(s, AfterSignalOld(s, t), t, u)
  {
    hide SignalActive;
    SignalRank(s, u);
    SignalRank(s, t);
    MoveFalls(SignalActive(s), t, if TaskToJoin(s).Some? then JoiningOld(TaskToJoin(s).value) else Registering, u);
    FallsAfter(s, SignalActive(s), AfterSignalOld(s, t), t, u);
  }

  lemma CancelRegisteredRank(s: State, t: Turn, u: Turn)
    ensures var n := CancelRegistered(s, t);
            n.accepts == s.accepts && n.runs.Keys == s.runs.Keys && n.control == s.control && Rank(n, u) == Rank(s, u)
  {
    SignalRank(s, u);
    hide SignalActive;
  }

  lemma CancelOwnFalls(s: State, t: Turn, u: Turn)
    requires CanCancelOwn(s, t)
    ensures Falls(s, AfterCancelOwn(s, t), t, u)
  {
    hide CancelRegistered, Rank;
    CancelRegisteredRank(s, t, u);
    CancelRegisteredRank(s, t, t);
    var m := CancelRegistered(s, t);
    if IsActive(s, t) && TaskToJoin(s).Some? {
      MoveFalls(m, t, JoiningOwn, u);
    } else {
      ReturnFalls(m, t, u);
    }
    FallsAfter(s, m, AfterCancelOwn(s, t), t, u);
  }

  lemma ReturnFalls(s: State, t: Turn, u: Turn)
    requires t in s.accepts && s.accepts[t].point != Returned
    ensures Falls(s, Return(s, t), t, u)
  {
  }

  lemma LeaveFalls(s: State, a: Action, u: Turn)
    requires a.LeaveProactiveJoin? || a.LeaveOldJoin? || a.FinishStart? || a.LeaveOwnJoin?
    requires Enabled(s, a)
    ensures Falls(s, Do(s, a), a.turn, u)
  {
  }

  lemma RegisterFalls(s: State, t: Turn, u: Turn)
    requires CanRegister(s, t)
    ensures Falls(s, AfterRegister(s, t), t, u)
  {
  }

  lemma StartFalls(s: State, t: Turn, u: Turn)
    requires CanStart(s, t) && At(s, t)
    ensures Falls(s, AfterStart(s, t), t, u)
  {
  }

  lemma EndFalls(s: State, t: Turn, ending: Ending, u: Turn)
    requires CanEnd(s, t, ending) && At(s, t)
    ensures Falls(s, AfterEnd(s, t, ending), t, u)
  {
    CommitRank(s, t, ending, u);
    CommitRank(s, t, ending, t);
    hide Commit, At;
  }

  lemma CommitRank(s: State, t: Turn, ending: Ending, u: Turn)
    requires At(s, t) && RunIs(s, t, Running)
    ensures var n := Commit(s, t, ending);
            && n.accepts == s.accepts && n.runs == s.runs && n.control == s.control
            && t !in s.service.finalizing
            && (u != t ==> (u in n.service.finalizing <==> u in s.service.finalizing))
  {
  }

  lemma RunFalls(s: State, a: Action, u: Turn)
    requires a.RunUser? || a.Finalize? || a.RegisterProactive? || a.CancelBeforeRun?
    requires Enabled(s, a) && Owner(s, a.turn)
    ensures Falls(s, Do(s, a), a.turn, u)
  {
  }

  /** An internal action of a turn lowers its rank and leaves the ranks of the others. */
  lemma RankFalls(s: State, a: Action, u: Turn)
    requires Inv(s) && Enabled(s, a) && Internal(a) && !a.Drain?
    ensures Falls(s, Do(s, a), a.turn, u)
  {
    assert At(s, a.turn);
    hide Inv, Falls;
    match a
    case Acquire(t) => AcquireFalls(s, t, u);
    case SignalOld(t) => SignalOldFalls(s, t, u);
    case CancelOwn(t) => CancelOwnFalls(s, t, u);
    case Register(t) => RegisterFalls(s, t, u);
    case Start(t) => StartFalls(s, t, u);
    case EndRun(t, ending) => EndFalls(s, t, ending, u);
    case RunUser(_) => RunFalls(s, a, u);
    case Finalize(_) => RunFalls(s, a, u);
    case RegisterProactive(_) => RunFalls(s, a, u);
    case CancelBeforeRun(_, _) => RunFalls(s, a, u);
    case _ => LeaveFalls(s, a, u);
  }

  lemma WorkFalls(s: State, a: Action)
    requires Inv(s) && Enabled(s, a) && Internal(a)
    ensures Work(Do(s, a)) < Work(s)
  {
    var n := Do(s, a);
    if a.Drain? {
      SameTotal(s, n, Turns(s));
    } else {
      hide Do, Inv, Enabled, Rank;
      RankFalls(s, a, a.turn);
      forall u | u in Turns(s) - {a.turn} ensures Rank(n, u) == Rank(s, u) {
        RankFalls(s, a, u);
      }
      TotalWithout(s, Turns(s), a.turn);
      TotalWithout(n, Turns(s), a.turn);
      SameTotal(s, n, Turns(s) - {a.turn});
    }
  }

  ghost predicate InternalStep(s: State, n: State) {
    exists a :: Internal(a) && Enabled(s, a) && n == Do(s, a)
  }

  lemma InternalStepWork(s: State, n: State)
    requires Inv(s) && InternalStep(s, n)
    ensures Work(n) < Work(s)
  {
    var a :| Internal(a) && Enabled(s, a) && n == Do(s, a);
    WorkFalls(s, a);
  }

  /** However internal actions are chosen, there are at most `Work` of them before new demands come in. */
  lemma {:induction false} SettlesWithin(run: seq<State>, i: nat, j: nat)
    requires IsRun(run) && i <= j < |run| && forall k :: i <= k < j ==> InternalStep(run[k], run[k + 1])
    ensures j - i + Work(run[j]) <= Work(run[i])
  {
    hide Inv, InternalStep, Work, IsRun;
    if i < j {
      SettlesWithin(run, i, j - 1);
      RunInv(run, j - 1);
      assert InternalStep(run[j - 1], run[j - 1 + 1]);
      InternalStepWork(run[j - 1], run[j]);
    }
  }
}
