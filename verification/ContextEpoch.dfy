/** The revocation epoch of app/memory/runtime.py: prompt snapshots built from several reads, retried until
    no revoking mutation has been announced meanwhile.

    `version` counts the committed writes, so a read at version `v` sees exactly the first `v` of them.  A
    mutator commits one or more writes and then calls `invalidate`; it may also fail in between. */
module ContextEpoch {

  type Id = nat

  datatype Progress = Working | Announced | Broken
  datatype Mutator = Mutator(written: nat, progress: Progress)

  datatype Phase =
    | BetweenRounds
    | Building(epoch: nat, since: nat, seen: seq<nat>)
    | Finished(seen: seq<nat>, settled: set<Id>)   // settled: the mutators announced before the final check

  datatype Reader = Reader(calledAt: nat, retries: nat, phase: Phase)

  datatype State = State(version: nat, epoch: nat, mutators: map<Id, Mutator>, readers: map<Id, Reader>)

  const INITIAL: State := State(0, 0, map[], map[])

  datatype Action =
    | BeginMutation(m: Id) | Write(m: Id) | Invalidate(m: Id) | Fail(m: Id)
    | CallSnapshot(r: Id) | ReadEpoch(r: Id) | Read(r: Id) | Check(r: Id)

  predicate IsWorking(s: State, m: Id) {
    m in s.mutators && s.mutators[m].progress == Working
  }

  predicate IsBuilding(s: State, r: Id) {
    r in s.readers && s.readers[r].phase.Building?
  }

  predicate Enabled(s: State, a: Action) {
    match a
    case BeginMutation(m) => m !in s.mutators
    case Write(m) => IsWorking(s, m)
    case Invalidate(m) => IsWorking(s, m)
    case Fail(m) => IsWorking(s, m)
    case CallSnapshot(r) => r !in s.readers
    case ReadEpoch(r) => r in s.readers && s.readers[r].phase.BetweenRounds?
    case Read(r) => IsBuilding(s, r)
    case Check(r) => IsBuilding(s, r)
  }

  function AnnouncedIn(s: State): set<Id> {
    set m | m in s.mutators && s.mutators[m].progress == Announced
  }

  /** The final comparison of a round: the snapshot is returned, or the round is thrown away. */
  function AfterCheck(reader: Reader, epoch: nat, announced: set<Id>): Reader
    requires reader.phase.Building?
  {
    if reader.phase.epoch == epoch then reader.(phase := Finished(reader.phase.seen, announced))
    else reader.(phase := BetweenRounds, retries := reader.retries + 1)
  }

  function Do(s: State, a: Action): State
    requires Enabled(s, a)
  {
    match a
    case BeginMutation(m) => s.(mutators := s.mutators[m := Mutator(0, Working)])
    case Write(m) => s.(version := s.version + 1, mutators := s.mutators[m := Mutator(s.version + 1, Working)])
    case Invalidate(m) => s.(epoch := s.epoch + 1, mutators := s.mutators[m := s.mutators[m].(progress := Announced)])
    case Fail(m) => s.(mutators := s.mutators[m := s.mutators[m].(progress := Broken)])
    case CallSnapshot(r) => s.(readers := s.readers[r := Reader(s.epoch, 0, BetweenRounds)])
    case ReadEpoch(r) => s.(readers := s.readers[r := s.readers[r].(phase := Building(s.epoch, s.version, []))])
    case Read(r) =>
      var reader := s.readers[r];
      var Building(epoch, since, seen) := reader.phase;
      s.(readers := s.readers[r := reader.(phase := Building(epoch, since, seen + [s.version]))])
    case Check(r) => s.(readers := s.readers[r := AfterCheck(s.readers[r], s.epoch, AnnouncedIn(s))])
  }

  ghost predicate Step(s: State, t: State) {
    exists a :: Enabled(s, a) && t == Do(s, a)
  }

  ghost predicate IsRun(run: seq<State>) {
    run != [] && run[0] == INITIAL && forall i :: 0 <= i < |run| - 1 ==> Step(run[i], run[i + 1])
  }

  // ----- Invariant -----

  predicate AllFrom(seen: seq<nat>, version: nat) {
    forall i :: 0 <= i < |seen| ==> version <= seen[i]
  }

  /** Reads follow each other, so they see ever later versions. */
  predicate Rising(seen: seq<nat>, version: nat) {
    && (forall i, j :: 0 <= i < j < |seen| ==> seen[i] <= seen[j])
    && (forall i :: 0 <= i < |seen| ==> seen[i] <= version)
  }

  /** While the epoch has not moved, a round has begun after every write announced so far. */
  ghost predicate ReaderOk(s: State, r: Id) {
    r in s.readers ==>
      var reader := s.readers[r];
      match reader.phase
      case BetweenRounds => reader.calledAt + reader.retries <= s.epoch
      case Building(epoch, since, seen) =>
        && reader.calledAt + reader.retries <= epoch <= s.epoch && since <= s.version && AllFrom(seen, since)
        && Rising(seen, s.version)
        && (epoch == s.epoch ==> forall m :: m in AnnouncedIn(s) ==> s.mutators[m].written <= since)
      case Finished(seen, settled) =>
        && reader.calledAt + reader.retries <= s.epoch
        && forall m :: m in settled ==> m in AnnouncedIn(s) && AllFrom(seen, s.mutators[m].written)
  }

  ghost predicate Inv(s: State) {
    && (forall m :: m in s.mutators ==> s.mutators[m].written <= s.version)
    && forall r: Id :: ReaderOk(s, r)
  }

  /** A mutator that has announced its writes stays as it is. */
  lemma AnnouncedStays(s: State, a: Action, m: Id)
    requires Enabled(s, a) && m in AnnouncedIn(s)
    ensures m in AnnouncedIn(Do(s, a)) && Do(s, a).mutators[m] == s.mutators[m]
  {
  }

  lemma OtherReader(s: State, a: Action, r: Id)
    requires Inv(s) && Enabled(s, a) && (a.ReadEpoch? || a.Read? || a.Check? || a.CallSnapshot? ==> a.r != r)
    ensures ReaderOk(Do(s, a), r)
  {
    assert ReaderOk(s, r);
    var n := Do(s, a);
    forall m | m in AnnouncedIn(s) ensures m in AnnouncedIn(n) && n.mutators[m] == s.mutators[m] {
      AnnouncedStays(s, a, m);
    }
    forall m | m in AnnouncedIn(n) && n.epoch == s.epoch ensures m in AnnouncedIn(s) {
    }
  }

  lemma OwnStep(s: State, a: Action)
    requires a.ReadEpoch? || a.Read? || a.Check? || a.CallSnapshot?
    requires Inv(s) && Enabled(s, a)
    ensures ReaderOk(Do(s, a), a.r)
  {
    assert ReaderOk(s, a.r);
  }

  lemma StepKeeps(s: State, a: Action)
    requires Inv(s) && Enabled(s, a)
    ensures Inv(Do(s, a))
  {
    var n := Do(s, a);
    forall r: Id ensures ReaderOk(n, r) {
      if (a.ReadEpoch? || a.Read? || a.Check? || a.CallSnapshot?) && a.r == r {
        OwnStep(s, a);
      } else {
        OtherReader(s, a, r);
      }
    }
  }

  lemma {:induction false} RunInv(run: seq<State>, i: nat)
    requires IsRun(run) && i < |run|
    ensures Inv(run[i])
  {
    if i > 0 {
      RunInv(run, i - 1);
      assert Step(run[i - 1], run[i - 1 + 1]);
      var a :| Enabled(run[i - 1], a) && run[i] == Do(run[i - 1], a);
      StepKeeps(run[i - 1], a);
    }
  }

  // ----- Results -----

  predicate IsFinished(s: State, r: Id) {
    r in s.readers && s.readers[r].phase.Finished?
  }

  lemma StepSettles(s: State, a: Action, m: Id, r: Id)
    requires Enabled(s, a) && m in AnnouncedIn(s)
    requires IsFinished(s, r) ==> m in s.readers[r].phase.settled
    ensures IsFinished(Do(s, a), r) ==> m in Do(s, a).readers[r].phase.settled
  {
  }

  lemma {:induction false} AnnouncedBeforeFinish(run: seq<State>, i: nat, j: nat, m: Id, r: Id)
    requires IsRun(run) && i <= j < |run| && m in AnnouncedIn(run[i]) && !IsFinished(run[i], r)
    ensures m in AnnouncedIn(run[j]) && run[j].mutators[m] == run[i].mutators[m]
    ensures IsFinished(run[j], r) ==> m in run[j].readers[r].phase.settled
  {
    if i < j {
      AnnouncedBeforeFinish(run, i, j - 1, m, r);
      assert Step(run[j - 1], run[j - 1 + 1]);
      var a :| Enabled(run[j - 1], a) && run[j] == Do(run[j - 1], a);
      AnnouncedStays(run[j - 1], a, m);
      StepSettles(run[j - 1], a, m, r);
    }
  }

  /** A snapshot returned after a mutation was announced was read wholly after that mutation. */
  lemma RevocationRespected(run: seq<State>, i: nat, j: nat, m: Id, r: Id)
    requires IsRun(run) && i <= j < |run|
    requires m in AnnouncedIn(run[i]) && !IsFinished(run[i], r) && IsFinished(run[j], r)
    ensures AllFrom(run[j].readers[r].phase.seen, run[i].mutators[m].written)
  {
    AnnouncedBeforeFinish(run, i, j, m, r);
    RunInv(run, j);
    assert ReaderOk(run[j], r);
  }

  lemma EpochStep(s: State, a: Action)
    requires Enabled(s, a)
    ensures Do(s, a).epoch == s.epoch + if a.Invalidate? then 1 else 0
  {
  }

  lemma CallKept(s: State, a: Action, r: Id)
    requires Enabled(s, a) && r in s.readers
    ensures r in Do(s, a).readers && Do(s, a).readers[r].calledAt == s.readers[r].calledAt
  {
  }

  /** The number of states of the run from `i` to `j` that follow an `invalidate`. */
  ghost function Invalidations(run: seq<State>, i: nat, j: nat): nat
    requires i <= j < |run|
    decreases j
  {
    if i == j then 0 else Invalidations(run, i, j - 1) + if run[j].epoch > run[j - 1].epoch then 1 else 0
  }

  lemma {:induction false} EpochCounts(run: seq<State>, i: nat, j: nat)
    requires IsRun(run) && i <= j < |run|
    ensures run[j].epoch == run[i].epoch + Invalidations(run, i, j)
    decreases j
  {
    if i < j {
      EpochCounts(run, i, j - 1);
      assert Step(run[j - 1], run[j - 1 + 1]);
      var a :| Enabled(run[j - 1], a) && run[j] == Do(run[j - 1], a);
      EpochStep(run[j - 1], a);
    }
  }

  lemma {:induction false} CalledWhen(run: seq<State>, i: nat, j: nat, r: Id)
    requires IsRun(run) && 0 < i <= j < |run| && r !in run[i - 1].readers && r in run[i].readers
    ensures r in run[j].readers && run[j].readers[r].calledAt == run[i].epoch
    decreases j
  {
    assert Step(run[j - 1], run[j - 1 + 1]);
    var a :| Enabled(run[j - 1], a) && run[j] == Do(run[j - 1], a);
    if i < j {
      CalledWhen(run, i, j - 1, r);
      CallKept(run[j - 1], a, r);
    }
  }

  /** A call is retried at most once for every `invalidate` that happens while it is under way. */
  lemma RetriesBounded(run: seq<State>, i: nat, j: nat, r: Id)
    requires IsRun(run) && 0 < i <= j < |run| && r !in run[i - 1].readers && r in run[i].readers
    ensures r in run[j].readers && run[j].readers[r].retries <= Invalidations(run, i, j)
  {
    CalledWhen(run, i, j, r);
    EpochCounts(run, i, j);
    RunInv(run, j);
    assert ReaderOk(run[j], r);
  }

  // ----- Mutators that fail before they announce -----

  predicate HasEnded(s: State, m: Id) {
    m in s.mutators && s.mutators[m].progress != Working
  }

  /** The snapshot `seen` was read wholly after the writes of `m`. */
  predicate Respects(s: State, seen: seq<nat>, m: Id)
    requires m in s.mutators
  {
    AllFrom(seen, s.mutators[m].written)
  }

  /** The writes of `m` were over when the first read of `seen` was made. */
  predicate WroteBefore(s: State, seen: seq<nat>, m: Id)
    requires m in s.mutators
  {
    seen == [] || s.mutators[m].written <= seen[0]
  }

  lemma EndedRespected(s: State, r: Id)
    requires Inv(s) && IsBuilding(s, r) && s.readers[r].phase.epoch == s.epoch
    ensures var seen := s.readers[r].phase.seen;
            (forall m :: HasEnded(s, m) ==> Respects(s, seen, m))
            <==> forall m :: m in s.mutators && s.mutators[m].progress == Broken ==> WroteBefore(s, seen, m)
  {
    assert ReaderOk(s, r);
    var Building(epoch, since, seen) := s.readers[r].phase;
    forall m | HasEnded(s, m)
      ensures Respects(s, seen, m) <==> s.mutators[m].progress == Broken ==> WroteBefore(s, seen, m)
    {
      if s.mutators[m].progress == Announced {
        assert m in AnnouncedIn(s) && s.mutators[m].written <= since;
      }
    }
  }

  lemma FinishesByCheck(s: State, a: Action, r: Id)
    requires Enabled(s, a) && !IsFinished(s, r) && IsFinished(Do(s, a), r)
    ensures a == Check(r) && IsBuilding(s, r) && s.readers[r].phase.epoch == s.epoch
    ensures Do(s, a).readers[r].phase.seen == s.readers[r].phase.seen && Do(s, a).mutators == s.mutators
  {
  }

  /** When a snapshot is returned, it respects all mutators that have ended by then exactly when each one that
      failed without announcing itself had finished writing before the snapshot's first read. */
  lemma SnapshotRespectsEnded(run: seq<State>, i: nat, r: Id)
    requires IsRun(run) && i + 1 < |run| && !IsFinished(run[i], r) && IsFinished(run[i + 1], r)
    ensures var s := run[i + 1];
            var seen := s.readers[r].phase.seen;
            (forall m :: HasEnded(s, m) ==> Respects(s, seen, m))
            <==> forall m :: m in s.mutators && s.mutators[m].progress == Broken ==> WroteBefore(s, seen, m)
  {
    RunInv(run, i);
    assert Step(run[i], run[i + 1]);
    var a :| Enabled(run[i], a) && run[i + 1] == Do(run[i], a);
    FinishesByCheck(run[i], a, r);
    EndedRespected(run[i], r);
    var s, n := run[i], run[i + 1];
    var seen := s.readers[r].phase.seen;
    assert forall m :: HasEnded(n, m) <==> HasEnded(s, m);
    assert forall m :: m in s.mutators ==> (Respects(n, seen, m) <==> Respects(s, seen, m));
    assert forall m :: m in s.mutators ==> (WroteBefore(n, seen, m) <==> WroteBefore(s, seen, m));
  }

  /** A mutator that fails after its write and before `invalidate` is not respected: a snapshot read before
      the write can be returned after the mutator has ended. */
  lemma FailedMutatorMissed() returns (run: seq<State>)
    ensures IsRun(run)
    ensures var last := run[|run| - 1];
            && 0 in last.mutators && last.mutators[0] == Mutator(1, Broken)
            && !IsFinished(run[|run| - 2], 0) && run[|run| - 2].mutators == last.mutators
            && IsFinished(last, 0) && last.readers[0].phase.seen == [0]
  {
    var head := ReadsEarly();
    var tail := MutatorFails();
    run := [INITIAL, head[0], head[1], READ_EARLY, tail[0], tail[1], tail[2], tail[3]];
  }

  lemma ReadsEarly() returns (head: seq<State>)
    ensures |head| == 2 && Step(INITIAL, head[0]) && Step(head[0], head[1]) && Step(head[1], READ_EARLY)
  {
    var called := Do(INITIAL, CallSnapshot(0));
    var begun := Do(called, ReadEpoch(0));
    var none: seq<nat> := [];
    assert none + [0] == [0];
    assert Do(begun, Read(0)) == READ_EARLY;
    head := [called, begun];
    assert Step(INITIAL, called) && Step(called, begun) && Step(begun, READ_EARLY);
  }

  const READ_EARLY: State := State(0, 0, map[], map[0 := Reader(0, 0, Building(0, 0, [0]))])

  lemma MutatorFails() returns (tail: seq<State>)
    ensures |tail| == 4 && Step(READ_EARLY, tail[0])
    ensures Step(tail[0], tail[1]) && Step(tail[1], tail[2]) && Step(tail[2], tail[3])
    ensures tail[2].mutators == tail[3].mutators == map[0 := Mutator(1, Broken)]
    ensures !IsFinished(tail[2], 0) && IsFinished(tail[3], 0) && tail[3].readers[0].phase.seen == [0]
  {
    var mutating := Do(READ_EARLY, BeginMutation(0));
    var written := Do(mutating, Write(0));
    var failed := Do(written, Fail(0));
    var checked := Do(failed, Check(0));
    tail := [mutating, written, failed, checked];
    assert Step(READ_EARLY, mutating) && Step(mutating, written) && Step(written, failed) && Step(failed, checked);
  }
}
