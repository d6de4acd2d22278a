/** What holds in every run of turn arbitration. */
module TurnArbitrationResults {
  import opened Options
  import opened TurnArbitration
  import opened TurnArbitrationProofs

  lemma InitialInv()
    ensures Inv(INITIAL)
  {
  }

  lemma ActionAt(run: seq<State>, i: nat) returns (a: Action)
    requires IsRun(run) && i + 1 < |run|
    ensures Enabled(run[i], a) && run[i + 1] == Do(run[i], a)
  {
    assert Step(run[i], run[i + 1]);
    a :| Enabled(run[i], a) && run[i + 1] == Do(run[i], a);
  }

  /** Every state of every run satisfies the invariant. */
  lemma {:induction false} RunInv(run: seq<State>, i: nat)
    requires IsRun(run) && i < |run|
    ensures Inv(run[i])
  {
    hide Inv, Enabled, Do;
    if i == 0 {
      InitialInv();
    } else {
      RunInv(run, i - 1);
      var a := ActionAt(run, i - 1);
      StepKeeps(run[i - 1], a);
    }
  }

  // ----- One owner -----

  /** One turn owns the output: it is open, it alone is in the session table, and only its run works. */
  ghost predicate OneOwner(s: State) {
    && (s.service.active.None? ==> s.service.sessionTurn == map[])
    && (s.service.active.Some? ==>
          var t := s.service.active.value.turn;
          && t in s.service.states && !Terminal(s.service.states[t])
          && s.service.sessionTurn == map[SessionOf(s, t) := t]
          && s.service.active.value.origin == OriginOf(s, t))
    && (forall t: Turn :: RunIs(s, t, Running) ==> IsActive(s, t))
    && (forall t: Turn :: CanEmit(s, t) ==> IsActive(s, t) && s.service.states[t] == Streaming)
    && (forall t: Turn, u: Turn :: RunIs(s, t, Running) && RunIs(s, u, Running) ==> t == u)
  }

  lemma RunningIsActive(s: State, t: Turn)
    requires At(s, t) && RunIs(s, t, Running)
    ensures IsActive(s, t) && t in s.service.states && s.service.states[t] == Streaming
  {
  }

  lemma SingleOwner(run: seq<State>, i: nat)
    requires IsRun(run) && i < |run|
    ensures OneOwner(run[i])
  {
    RunInv(run, i);
    OwnerOf(run[i]);
  }

  lemma OwnerOf(s: State)
    requires Inv(s)
    ensures OneOwner(s)
  {
    if s.service.active.Some? {
      assert At(s, s.service.active.value.turn);
    }
    forall t: Turn | RunIs(s, t, Running)
      ensures IsActive(s, t) && t in s.service.states && s.service.states[t] == Streaming
    {
      RunningIsActive(s, t);
    }
  }

  lemma OnlyRunning(s: State, t: Turn)
    requires Inv(s) && RunIs(s, t, Running)
    ensures forall u: Turn :: RunIs(s, u, Running) ==> u == t
  {
    OwnerOf(s);
  }

  lemma RunningOwns(s: State, t: Turn)
    requires Inv(s) && RunIs(s, t, Running)
    ensures IsActive(s, t) && t in s.service.states && s.service.states[t] == Streaming
  {
    assert At(s, t);
  }

  /** The end of a run leaves no active turn and no run at work. */
  lemma AfterItsEnd(s: State, t: Turn, ending: Ending)
    requires Inv(s) && CanEnd(s, t, ending)
    ensures var n := AfterEnd(s, t, ending);
            && n.service.active.None? && t in n.service.states && Terminal(n.service.states[t])
            && SettledOnce(n, t) && forall u: Turn :: !RunIs(n, u, Running)
  {
    assert At(s, t);
    EndKeeps(s, t, ending);
    EndingTurn(s, t);
    EndEffects(s, t, ending);
    EndingDecides(s, t, ending);
    hide At, AfterEnd;
    OwnerOf(AfterEnd(s, t, ending));
    EventsOf(AfterEnd(s, t, ending), t);
  }

  /** How the run ended decides the status and the event: an interrupted one is cancelled, one that raised has
      failed, and one that came to its end is completed, which a user turn publishes only after its post-commit. */
  lemma EndingDecides(s: State, t: Turn, ending: Ending)
    requires Inv(s) && CanEnd(s, t, ending)
    ensures var n := AfterEnd(s, t, ending);
            var status := StatusOf(n, t);
            && (ending.IsInterrupted? ==>
                  status == Some(Cancelled) && n.log == s.log + [Event(IsCancelled, OriginOf(s, t), t)])
            && (ending.Fails? ==>
                  status == Some(Failed) && n.log == s.log + [Event(IsFailed, OriginOf(s, t), t)])
            && (ending.Completes? && t in s.accepts ==>
                  status == Some(Completed) && n.log == s.log && t in n.service.finalizing)
            && (ending.Completes? && t !in s.accepts ==>
                  status == Some(Completed) && n.log == s.log + [Event(IsCompleted, Proactive, t)])
  {
    RunningOwns(s, t);
    hide Inv, At;
  }

  /** After a cancellation the turn is terminal, or its live task has been signalled. */
  lemma CancelledOrSignalled(s: State, t: Turn)
    requires Inv(s)
    ensures var n := CancelRegistered(s, t);
            t in n.service.states && !Terminal(n.service.states[t]) ==>
              IsActive(n, t) && n.service.active.value.cancellationStarted && Live(n, t)
  {
    CancelRegisteredKeeps(s, t);
    SignalActiveKeeps(s);
    assert At(s, t);
    var n := CancelRegistered(s, t);
    assert At(n, t);
    hide SignalActive;
  }

  // ----- User priority -----

  /** No proactive task is running or waiting to run, and none can start. */
  ghost predicate NoProactiveWork(s: State) {
    && (forall p: Turn :: p !in s.accepts ==> !Live(s, p))
    && (forall p: Turn :: !CanTryStart(s, p))
  }

  lemma PriorityAt(s: State, t: Turn, p: Turn)
    requires At(s, t) && At(s, p) && LocksOk(s)
    requires t in s.lifecycle.users && t in s.service.states && p !in s.accepts
    ensures !Live(s, p)
  {
  }

  /** While a user turn has priority nothing proactive runs once the turn is accepted, and until then
      what still runs is cancelled already; an open user turn has priority until its accept call or run ends. */
  lemma UserPriority(run: seq<State>, i: nat, t: Turn)
    requires IsRun(run) && i < |run|
    ensures var s := run[i];
            && (t in s.lifecycle.users && Event(IsAccepted, User, t) in s.log ==> NoProactiveWork(s))
            && (t in s.lifecycle.users && ProactiveLive(s) ==> s.runs[s.lifecycle.task.value].token)
            && (t in s.accepts && (Live(s, t) || AcceptIs(s, t, Observing)) ==> t in s.lifecycle.users)
  {
    RunInv(run, i);
    PriorityOf(run[i], t);
  }

  lemma PriorityOf(s: State, t: Turn)
    requires Inv(s)
    ensures t in s.lifecycle.users && Event(IsAccepted, User, t) in s.log ==> NoProactiveWork(s)
    ensures t in s.lifecycle.users && ProactiveLive(s) ==> s.runs[s.lifecycle.task.value].token
    ensures t in s.accepts && (Live(s, t) || AcceptIs(s, t, Observing)) ==> t in s.lifecycle.users
  {
    assert At(s, t);
    if t in s.lifecycle.users && Event(IsAccepted, User, t) in s.log {
      AcceptedIsRegistered(s, t);
      forall p: Turn | p !in s.accepts ensures !Live(s, p) {
        assert At(s, p);
        PriorityAt(s, t, p);
      }
    }
  }

  /** Registering with priority leaves nothing proactive at work. */
  lemma PriorityOnceRegistered(s: State, t: Turn)
    requires Inv(s) && t in s.lifecycle.users && t in s.service.states
    ensures NoProactiveWork(s)
  {
    forall p: Turn | p !in s.accepts ensures !Live(s, p) {
      assert At(s, t) && At(s, p);
      PriorityAt(s, t, p);
    }
  }

  lemma PriorityWhileObserving(s: State, t: Turn)
    requires Inv(s) && AcceptIs(s, t, Observing)
    ensures NoProactiveWork(s)
  {
    assert At(s, t);
    PriorityOnceRegistered(s, t);
  }

  /** A started proactive run is the only proactive one that lives, and no user turn has priority beside it. */
  lemma StartedAlone(s: State, t: Turn)
    requires Inv(s) && CanTryStart(s, t)
    ensures var n := AfterTryStart(s, t);
            n.lifecycle.users == {} && forall u: Turn :: u !in n.accepts && Live(n, u) ==> u == t
  {
    TryStartKeeps(s, t);
    var n := AfterTryStart(s, t);
    forall u: Turn | u !in n.accepts && Live(n, u) ensures u == t {
      assert At(n, u);
    }
  }

  /** A proactive run gets going only while no user turn has priority. */
  lemma NoPriorityBeside(s: State, t: Turn)
    requires Inv(s) && CanRegisterProactive(s, t)
    ensures s.lifecycle.users == {}
  {
    forall u | u in s.lifecycle.users ensures false {
      NoUsers(s, t, u);
    }
  }

  lemma AcceptedIsRegistered(s: State, t: Turn)
    requires At(s, t) && Event(IsAccepted, User, t) in s.log
    ensures t in s.service.states
  {
    assert multiset(s.log)[Event(IsAccepted, User, t)] > 0;
  }

  // ----- Terminal states -----

  predicate Settled(s: State, t: Turn, status: Status) {
    t in s.service.states && s.service.states[t] == status && Terminal(status)
  }

  lemma SignalKeepsSettled(s: State, t: Turn, status: Status)
    requires Settled(s, t, status)
    ensures Settled(SignalActive(s), t, status)
  {
  }

  lemma CancelKeepsSettled(s: State, u: Turn, t: Turn, status: Status)
    requires Settled(s, t, status)
    ensures Settled(CancelRegistered(s, u), t, status)
  {
    SignalKeepsSettled(s, t, status);
  }

  lemma AcceptKeepsSettled(s: State, a: Action, t: Turn, status: Status)
    requires a.Acquire? || a.LeaveProactiveJoin? || a.SignalOld? || a.Register? || a.Start? || a.Abort? || a.CancelOwn?
    requires Enabled(s, a) && At(s, a.turn) && Settled(s, t, status)
    ensures Settled(Do(s, a), t, status)
  {
    hide SignalActive, CancelRegistered;
    if a.SignalOld? {
      hide At;
      SignalKeepsSettled(s, t, status);
    } else if a.CancelOwn? {
      hide At;
      CancelKeepsSettled(s, a.turn, t, status);
    }
  }

  lemma EndKeepsSettled(s: State, u: Turn, ending: Ending, t: Turn, status: Status)
    requires CanEnd(s, u, ending) && At(s, u) && Settled(s, t, status)
    ensures Settled(AfterEnd(s, u, ending), t, status)
  {
    assert u != t;
  }

  lemma RunKeepsSettled(s: State, a: Action, t: Turn, status: Status)
    requires a.RunUser? || a.RegisterProactive? || a.Finalize? || a.TryStart? || a.CancelBeforeRun?
    requires Enabled(s, a) && At(s, a.turn) && Settled(s, t, status)
    ensures Settled(Do(s, a), t, status)
  {
  }

  lemma StepKeepsSettled(s: State, a: Action, t: Turn, status: Status)
    requires Inv(s) && Enabled(s, a) && Settled(s, t, status)
    ensures Settled(Do(s, a), t, status)
  {
    hide At, SignalActive, CancelRegistered;
    match a
    case Acquire(u) => assert At(s, u); AcceptKeepsSettled(s, a, t, status);
    case LeaveProactiveJoin(u) => assert At(s, u); AcceptKeepsSettled(s, a, t, status);
    case SignalOld(u) => assert At(s, u); AcceptKeepsSettled(s, a, t, status);
    case Register(u) => assert At(s, u); AcceptKeepsSettled(s, a, t, status);
    case Start(u) => assert At(s, u); AcceptKeepsSettled(s, a, t, status);
    case Abort(u) => assert At(s, u); AcceptKeepsSettled(s, a, t, status);
    case CancelOwn(u) => assert At(s, u); AcceptKeepsSettled(s, a, t, status);
    case RunUser(u) => assert At(s, u); RunKeepsSettled(s, a, t, status);
    case EndRun(u, ending) => assert At(s, u); EndKeepsSettled(s, u, ending, t, status);
    case Finalize(u) => assert At(s, u); RunKeepsSettled(s, a, t, status);
    case TryStart(u) => assert At(s, u); RunKeepsSettled(s, a, t, status);
    case RegisterProactive(u) => assert At(s, u); RunKeepsSettled(s, a, t, status);
    case CancelBeforeRun(u, _) => assert At(s, u); RunKeepsSettled(s, a, t, status);
    case CancelTurn(u) => CancelKeepsSettled(s, u, t, status);
    case ShutDown => SignalKeepsSettled(s, t, status);
    case _ =>
  }

  /** A terminal status never changes again, whatever cancellation, replacement or shutdown follows. */
  lemma {:induction false} TerminalIsFinal(run: seq<State>, i: nat, j: nat, t: Turn, status: Status)
    requires IsRun(run) && i <= j < |run| && Settled(run[i], t, status)
    ensures Settled(run[j], t, status)
  {
    hide Inv, Enabled, Do, IsRun, Settled;
    if i < j {
      TerminalIsFinal(run, i, j - 1, t, status);
      RunInv(run, j - 1);
      var a := ActionAt(run, j - 1);
      StepKeepsSettled(run[j - 1], a, t, status);
    }
  }

  // ----- How a turn ends -----

  /** A step settles `t` that leaves it with a terminal status it did not have before. */
  predicate Settles(s: State, n: State, t: Turn, status: Status) {
    Settled(n, t, status) && !Settled(s, t, status)
  }

  /** A turn without a running task is cancelled on the spot by one of these. */
  predicate CancelsAtOnce(s: State, a: Action, t: Turn) {
    (a.SignalOld? || a.CancelOwn? || a.CancelTurn? || a.ShutDown?) && !Live(s, t)
  }

  lemma SignalSettles(s: State, t: Turn, status: Status)
    requires At(s, t) && Settles(s, SignalActive(s), t, status)
    ensures status == Cancelled && !Live(s, t)
  {
  }

  lemma CancelSettles(s: State, u: Turn, t: Turn, status: Status)
    requires At(s, t) && Settles(s, CancelRegistered(s, u), t, status)
    ensures status == Cancelled && !Live(s, t)
  {
    if IsActive(s, u) && CancelRegistered(s, u) == SignalActive(s) {
      SignalSettles(s, t, status);
    }
    hide SignalActive;
  }

  lemma AcceptSettles(s: State, a: Action, t: Turn, status: Status)
    requires a.Acquire? || a.LeaveProactiveJoin? || a.SignalOld? || a.Register? || a.Start? || a.Abort? || a.CancelOwn?
    requires Enabled(s, a) && At(s, t) && At(s, a.turn) && Settles(s, Do(s, a), t, status)
    ensures status == Cancelled && CancelsAtOnce(s, a, t)
  {
    hide At, SignalActive, CancelRegistered;
    if a.SignalOld? && Settles(s, SignalActive(s), t, status) {
      SignalSettles(s, t, status);
    }
    if a.CancelOwn? && Settles(s, CancelRegistered(s, a.turn), t, status) {
      CancelSettles(s, a.turn, t, status);
    }
  }

  lemma EndSettles(s: State, u: Turn, ending: Ending, t: Turn, status: Status)
    requires Inv(s) && CanEnd(s, u, ending) && Settles(s, AfterEnd(s, u, ending), t, status)
    ensures u == t
    ensures status == (match ending case IsInterrupted => Cancelled case Fails => Failed case Completes => Completed)
  {
    EndingDecides(s, u, ending);
    hide Inv;
  }

  lemma EndStepSettles(s: State, u: Turn, ending: Ending, t: Turn, status: Status)
    requires Inv(s) && Enabled(s, EndRun(u, ending)) && Settles(s, Do(s, EndRun(u, ending)), t, status)
    ensures u == t
    ensures status == (match ending case IsInterrupted => Cancelled case Fails => Failed case Completes => Completed)
  {
    hide Inv, Settles, AfterEnd;
    EndSettles(s, u, ending, t, status);
  }

  lemma CancelStepSettles(s: State, u: Turn, t: Turn, status: Status)
    requires At(s, t) && Enabled(s, CancelTurn(u)) && Settles(s, Do(s, CancelTurn(u)), t, status)
    ensures status == Cancelled && CancelsAtOnce(s, CancelTurn(u), t)
  {
    hide At, Settles, CancelRegistered;
    CancelSettles(s, u, t, status);
  }

  lemma ShutDownSettles(s: State, t: Turn, status: Status)
    requires At(s, t) && Enabled(s, ShutDown) && Settles(s, Do(s, ShutDown), t, status)
    ensures status == Cancelled && CancelsAtOnce(s, ShutDown, t)
  {
    hide At, SignalActive;
    SignalSettles(s, t, status);
  }

  lemma OtherStepsSettleNothing(s: State, a: Action, t: Turn, status: Status)
    requires !(a.Acquire? || a.LeaveProactiveJoin? || a.SignalOld? || a.Register? || a.Start? || a.Abort?
               || a.CancelOwn? || a.EndRun? || a.CancelTurn? || a.ShutDown?)
    requires Enabled(s, a)
    ensures !Settles(s, Do(s, a), t, status)
  {
  }

  /** A turn becomes failed only as its run raises, and completed only as its run comes to its end; it is
      cancelled as its run is interrupted or, without a task at work, at once. */
  lemma OnlyEndingsSettle(s: State, a: Action, t: Turn, status: Status)
    requires Inv(s) && Enabled(s, a) && Settles(s, Do(s, a), t, status)
    ensures match status
            case Failed => a == EndRun(t, Fails)
            case Completed => a == EndRun(t, Completes)
            case _ => a == EndRun(t, IsInterrupted) || CancelsAtOnce(s, a, t)
  {
    hide At, SignalActive, CancelRegistered, Settles, Settled, Enabled, Do, Live;
    assert At(s, t);
    match a
    case Acquire(u) => assert At(s, u); AcceptSettles(s, a, t, status);
    case LeaveProactiveJoin(u) => assert At(s, u); AcceptSettles(s, a, t, status);
    case SignalOld(u) => assert At(s, u); AcceptSettles(s, a, t, status);
    case Register(u) => assert At(s, u); AcceptSettles(s, a, t, status);
    case Start(u) => assert At(s, u); AcceptSettles(s, a, t, status);
    case Abort(u) => assert At(s, u); AcceptSettles(s, a, t, status);
    case CancelOwn(u) => assert At(s, u); AcceptSettles(s, a, t, status);
    case EndRun(u, ending) => EndStepSettles(s, u, ending, t, status);
    case CancelTurn(u) => CancelStepSettles(s, u, t, status);
    case ShutDown => ShutDownSettles(s, t, status);
    case _ => OtherStepsSettleNothing(s, a, t, status);
  }

  /** Behind every terminal status of a run stands the step that gave it. */
  lemma {:induction false} HowATurnEnded(run: seq<State>, i: nat, t: Turn, status: Status) returns (at: nat, a: Action)
    requires IsRun(run) && i < |run| && Settled(run[i], t, status)
    ensures at < i && Enabled(run[at], a) && run[at + 1] == Do(run[at], a)
    ensures match status
            case Failed => a == EndRun(t, Fails)
            case Completed => a == EndRun(t, Completes)
            case _ => a == EndRun(t, IsInterrupted) || CancelsAtOnce(run[at], a, t)
  {
    hide Inv, Enabled, Do, IsRun, CancelsAtOnce;
    assert i > 0 by {
      NothingSettledAtFirst(run, t, status);
    }
    if Settled(run[i - 1], t, status) {
      at, a := HowATurnEnded(run, i - 1, t, status);
    } else {
      at := i - 1;
      a := ActionAt(run, at);
      RunInv(run, at);
      OnlyEndingsSettle(run[at], a, t, status);
    }
  }

  lemma NothingSettledAtFirst(run: seq<State>, t: Turn, status: Status)
    requires IsRun(run)
    ensures !Settled(run[0], t, status)
  {
  }

  /** And every ending gives its status for good. */
  lemma EndingStays(run: seq<State>, at: nat, i: nat, t: Turn, ending: Ending)
    requires IsRun(run) && at < i < |run|
    requires Enabled(run[at], EndRun(t, ending)) && run[at + 1] == Do(run[at], EndRun(t, ending))
    ensures ending.IsInterrupted? ==> Settled(run[i], t, Cancelled)
    ensures ending.Fails? ==> Settled(run[i], t, Failed)
    ensures ending.Completes? ==> Settled(run[i], t, Completed)
  {
    hide Inv, IsRun, AfterEnd;
    RunInv(run, at);
    EndingDecides(run[at], t, ending);
    TerminalIsFinal(run, at + 1, i, t, run[at + 1].service.states[t]);
  }

  /** How many terminal events of `t` were published. */
  ghost function TerminalEvents(log: seq<Event>, t: Turn): nat {
    if log == [] then 0
    else
      var last := log[|log| - 1];
      TerminalEvents(log[..|log| - 1], t)
      + if last.turn == t && (last.kind.IsCancelled? || last.kind.IsFailed? || last.kind.IsCompleted?) then 1 else 0
  }

  lemma CountLast(log: seq<Event>, e: Event)
    requires log != []
    ensures multiset(log)[e] == multiset(log[..|log| - 1])[e] + if log[|log| - 1] == e then 1 else 0
  {
    assert log == log[..|log| - 1] + [log[|log| - 1]];
  }

  lemma {:induction false} TerminalEventsCounted(log: seq<Event>, t: Turn)
    ensures var m := multiset(log);
            TerminalEvents(log, t) ==
            m[Event(IsCancelled, User, t)] + m[Event(IsFailed, User, t)] + m[Event(IsCompleted, User, t)]
            + m[Event(IsCancelled, Proactive, t)] + m[Event(IsFailed, Proactive, t)] + m[Event(IsCompleted, Proactive, t)]
  {
    if log != [] {
      var before, last := log[..|log| - 1], log[|log| - 1];
      TerminalEventsCounted(before, t);
      CountLast(log, Event(IsCancelled, User, t));
      CountLast(log, Event(IsFailed, User, t));
      CountLast(log, Event(IsCompleted, User, t));
      CountLast(log, Event(IsCancelled, Proactive, t));
      CountLast(log, Event(IsFailed, Proactive, t));
      CountLast(log, Event(IsCompleted, Proactive, t));
      assert last.origin == User || last.origin == Proactive;
    }
  }

  function TerminalKind(status: Status): Kind
    requires Terminal(status)
  {
    match status
    case Cancelled => IsCancelled
    case Failed => IsFailed
    case Completed => IsCompleted
  }

  /** A turn publishes a terminal event at most once, of the kind of its final status; the only terminal
      turns without one yet are the completed user turns whose post-commit task has not published. */
  ghost predicate SettledOnce(s: State, t: Turn) {
    if t in s.service.states && Terminal(s.service.states[t])
    then TerminalEvents(s.log, t) == (if t in s.service.finalizing then 0 else 1)
      && (t in s.service.finalizing ==> s.service.states[t] == Completed)
      && (t !in s.service.finalizing ==> Event(TerminalKind(s.service.states[t]), OriginOf(s, t), t) in s.log)
    else TerminalEvents(s.log, t) == 0
  }

  lemma OneTerminalEvent(run: seq<State>, i: nat, t: Turn)
    requires IsRun(run) && i < |run|
    ensures SettledOnce(run[i], t)
  {
    RunInv(run, i);
    EventsOf(run[i], t);
  }

  lemma EventsOf(s: State, t: Turn)
    requires Inv(s)
    ensures SettledOnce(s, t)
  {
    assert At(s, t);
    TerminalEventsCounted(s.log, t);
    if t in s.service.states && Terminal(s.service.states[t]) && t !in s.service.finalizing {
      assert multiset(s.log)[Event(TerminalKind(s.service.states[t]), OriginOf(s, t), t)] == 1;
    }
  }

  // ----- Replacement -----

  lemma {:induction false} OrderlyAt(log: seq<Event>, k: nat)
    requires Orderly(log) && k < |log|
    ensures log[k].kind == IsAccepted || MayBeLate(log[k]) || LastAccepted(log[..k]) == Some(log[k].turn)
  {
    var before := log[..|log| - 1];
    if k < |log| - 1 {
      OrderlyAt(before, k);
      assert before[..k] == log[..k] && before[k] == log[k];
    }
  }

  lemma {:induction false} LastAcceptedIs(log: seq<Event>) returns (at: nat)
    requires LastAccepted(log).Some?
    ensures at < |log| && log[at].kind == IsAccepted && log[at].turn == LastAccepted(log).value
    ensures forall m :: at < m < |log| ==> log[m].kind != IsAccepted
  {
    at := |log| - 1;
    if log[at].kind != IsAccepted {
      at := LastAcceptedIs(log[..|log| - 1]);
    }
  }

  lemma PublishedTwice(log: seq<Event>, i: nat, j: nat)
    requires i < j < |log| && log[i] == log[j]
    ensures multiset(log)[log[i]] >= 2
  {
    assert log == log[..i] + [log[i]] + log[i + 1..j] + [log[j]] + log[j + 1..];
  }

  lemma AcceptedAs(s: State, i: nat)
    requires i < |s.log| && s.log[i].kind == IsAccepted && At(s, s.log[i].turn)
    ensures s.log[i] == Event(IsAccepted, OriginOf(s, s.log[i].turn), s.log[i].turn)
  {
    assert s.log[i].origin == User || s.log[i].origin == Proactive;
    assert s.log[i] in multiset(s.log);
  }

  lemma AcceptedOnce(s: State, i: nat, j: nat)
    requires i < |s.log| && j < |s.log| && At(s, s.log[i].turn)
    requires s.log[i].kind == s.log[j].kind == IsAccepted && s.log[i].turn == s.log[j].turn
    ensures i == j
  {
    var t := s.log[i].turn;
    AcceptedAs(s, i);
    AcceptedAs(s, j);
    assert multiset(s.log)[Event(IsAccepted, OriginOf(s, t), t)] <= 1;
    if i < j {
      PublishedTwice(s.log, i, j);
    } else if j < i {
      PublishedTwice(s.log, j, i);
    }
  }

  /** Once another turn has been accepted, a turn accepted before it publishes nothing but its
      post-commit assistant.completed. */
  lemma ReplacementBarrier(run: seq<State>, i: nat, first: nat, second: nat, k: nat)
    requires IsRun(run) && i < |run| && first < second < k < |run[i].log|
    requires run[i].log[first].kind == run[i].log[second].kind == IsAccepted
    requires run[i].log[k].turn == run[i].log[first].turn
    ensures MayBeLate(run[i].log[k])
  {
    RunInv(run, i);
    var s := run[i];
    var log, t := s.log, s.log[first].turn;
    assert At(s, t);
    OrderlyAt(log, k);
    if log[k].kind == IsAccepted {
      AcceptedOnce(s, first, k);
    } else if !MayBeLate(log[k]) {
      var at := LastAcceptedIs(log[..k]);
      assert log[..k][second] == log[second];
      AcceptedOnce(s, first, at);
    }
  }

  // ----- Shutdown -----

  lemma ShutdownStep(s: State, a: Action)
    requires Enabled(s, a) && s.control.shutdown == PipelineClosed && LocksOk(s)
    ensures Do(s, a).control.shutdown == PipelineClosed
  {
    SignalKeepsControl(s);
    hide SignalActive;
  }

  lemma SignalKeepsControl(s: State)
    ensures SignalActive(s).control == s.control
  {
  }

  lemma NoneRunsOnceClosed(s: State)
    requires Inv(s)
    ensures s.control.shutdown == PipelineClosed ==> forall u: Turn :: !RunIs(s, u, Running)
  {
    forall u: Turn | s.control.shutdown == PipelineClosed ensures !RunIs(s, u, Running) {
      ClosedAt(s, u);
    }
  }

  lemma ClosedAt(s: State, t: Turn)
    requires Inv(s) && s.control.shutdown == PipelineClosed
    ensures !RunIs(s, t, Running) && !(t in s.accepts && Live(s, t))
  {
    assert At(s, t);
  }

  /** Once the pipeline is closed no run is inside it, and none ever gets in again. */
  lemma {:induction false} PipelineClosedAlone(run: seq<State>, i: nat, j: nat, t: Turn)
    requires IsRun(run) && i <= j < |run| && run[i].control.shutdown == PipelineClosed
    ensures run[j].control.shutdown == PipelineClosed
    ensures !RunIs(run[j], t, Running) && !(t in run[j].accepts && Live(run[j], t))
  {
    hide Enabled, Do, IsRun, At, RunIs, Live;
    RunInv(run, j);
    if i < j {
      PipelineClosedAlone(run, i, j - 1, t);
      RunInv(run, j - 1);
      var a := ActionAt(run, j - 1);
      ShutdownStep(run[j - 1], a);
    }
    ClosedAt(run[j], t);
  }
}
