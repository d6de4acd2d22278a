/** The main results about every run of the dialogue pipeline: order, completeness, ownership, termination. */
module DialogueRunResults {
  import opened Options
  import opened Segmentation
  import opened DialogueRun
  import opened DialogueReports
  import opened DialogueRunProofs

  lemma InitialInv(c: Config)
    requires c.Valid()
    ensures Inv(c, Initial(c))
  {
    var s := Initial(c);
    NoneGone(s.workers);
    assert [] + c.settings.ReplyTexts("", c.reply) == c.settings.ReplyTexts("", c.reply);
    assert "" + Concat(c.reply) == Concat(c.reply);
    forall i: nat ensures At(c, s, i) && Ready(c, s, i) && Finished(s.events, s.playback, i) {
    }
  }

  lemma {:induction false} NoneGone(ws: seq<Worker>)
    requires forall w :: 0 <= w < |ws| ==> ws[w] == Idle
    ensures Gone(ws) == 0
  {
    if ws != [] {
      NoneGone(ws[..|ws| - 1]);
    }
  }

  /** Every state of every run satisfies the invariant. */
  lemma {:induction false} RunInv(c: Config, run: seq<State>, k: nat)
    requires c.Valid() && IsRun(c, run) && k < |run|
    ensures Inv(c, run[k])
  {
    if k == 0 {
      InitialInv(c);
    } else {
      RunInv(c, run, k - 1);
      assert Step(c, run[k - 1], run[k - 1 + 1]);
      var a :| Enabled(c, run[k - 1], a) && run[k] == Do(c, run[k - 1], a);
      StepKeeps(c, run[k - 1], a);
    }
  }

  // ----- Order -----

  /** In every state of every run, playback has started or skipped exactly 0, 1, ..., n-1, in this order. */
  lemma PlaybackInOrder(c: Config, run: seq<State>, k: nat)
    requires c.Valid() && IsRun(c, run) && k < |run|
    ensures InOrder(run[k].events)
  {
    RunInv(c, run, k);
    OrderOf(c, run[k]);
  }

  ghost predicate InOrder(events: seq<Event>) {
    PlaybackIndices(events) == UpTo(|PlaybackIndices(events)|)
  }

  lemma OrderOf(c: Config, s: State)
    requires c.Valid() && Inv(c, s)
    ensures InOrder(s.events)
  {
  }

  /** What one turn of the player's inner loop makes of the state. */
  function AfterDrainTurn(c: Config, s: State): State {
    if s.playback.nextIndex !in s.playback.pending then AfterDrainDone(c, s)
    else if s.playback.pending[s.playback.nextIndex] then AfterStartNext(s)
    else AfterSkipNext(s)
  }

  lemma DrainTurnKeeps(c: Config, s: State)
    requires c.Valid() && Inv(c, s) && s.phase == Working && s.playback.player == Draining && !s.flags.token
    ensures Inv(c, AfterDrainTurn(c, s)) && InOrder(AfterDrainTurn(c, s).events)
  {
    hide Inv, InOrder;
    StepKeeps(c, s, if s.playback.nextIndex !in s.playback.pending then DrainDone
                    else if s.playback.pending[s.playback.nextIndex] then StartNext
                    else SkipNext);
    OrderOf(c, AfterDrainTurn(c, s));
  }

  // ----- What the listeners get -----

  /** In every state of every run the deltas heard so far make up the text so far, a prefix of the reply; the
      segments announced are those completed, with their positions, and each has its one job. */
  lemma ListenersFollow(c: Config, run: seq<State>, k: nat)
    requires c.Valid() && IsRun(c, run) && k < |run|
    ensures Heard(run[k].events) == run[k].speech.fullText && Heard(run[k].events) <= Concat(c.reply)
    ensures SegmentTexts(run[k].events) == run[k].speech.completed
    ensures SegmentIndices(run[k].events) == UpTo(|run[k].speech.completed|)
    ensures JobIndices(run[k].events) == UpTo(Submitted(c, run[k].speech))
  {
    RunInv(c, run, k);
    FollowedBy(c, run[k]);
  }

  lemma FollowedBy(c: Config, s: State)
    requires c.Valid() && Inv(c, s)
    ensures Heard(s.events) == s.speech.fullText && Heard(s.events) <= Concat(c.reply)
    ensures SegmentTexts(s.events) == s.speech.completed && SegmentIndices(s.events) == UpTo(|s.speech.completed|)
    ensures JobIndices(s.events) == UpTo(Submitted(c, s.speech))
  {
  }

  lemma DeltaIsHeard(c: Config, s: State)
    requires c.Valid() && Inv(c, s) && CanReceiveDelta(s)
    ensures var t := AfterReceiveDelta(c, s);
            Inv(c, t) && Heard(t.events) == t.speech.fullText
  {
    hide Inv, Settings.Feed;
    StepKeeps(c, s, ReceiveDelta);
    FollowedBy(c, AfterReceiveDelta(c, s));
  }

  lemma SegmentIsAnnounced(c: Config, s: State)
    requires c.Valid() && Inv(c, s) && CanQueueSegment(s)
    ensures var t := AfterQueueSegment(c, s);
            && Inv(c, t) && SegmentTexts(t.events) == t.speech.completed
            && SegmentIndices(t.events) == UpTo(|t.speech.completed|)
            && JobIndices(t.events) == UpTo(Submitted(c, t.speech))
  {
    hide Inv;
    StepKeeps(c, s, QueueSegment);
    FollowedBy(c, AfterQueueSegment(c, s));
  }

  /** In every state a segment was announced as ready at most once, with its outcome, and was finished at most
      once, after its playback had started. */
  lemma AudioIsReported(c: Config, run: seq<State>, k: nat, i: nat)
    requires c.Valid() && IsRun(c, run) && k < |run|
    ensures var s, log := run[k], multiset(run[k].events);
            && log[AudioReady(i, true)] + log[AudioReady(i, false)] <= 1
            && (AudioReady(i, true) in s.events ==> i in s.owned.synthesized)
            && (AudioReady(i, false) in s.events ==> i !in s.owned.synthesized)
            && log[PlaybackFinished(i)] <= (if PlaybackStarted(i) in s.events then 1 else 0)
  {
    RunInv(c, run, k);
    assert Ready(c, run[k], i) && Finished(run[k].events, run[k].playback, i);
  }

  // ----- Completeness -----

  lemma {:induction false} PlaybackIndexHasEvent(events: seq<Event>, i: nat)
    ensures i in PlaybackIndices(events) <==> PlaybackStarted(i) in events || PlaybackSkipped(i) in events
  {
    if events != [] {
      PlaybackIndexHasEvent(events[..|events| - 1], i);
      assert events == events[..|events| - 1] + [events[|events| - 1]];
    }
  }

  lemma EndsAreCounted<T>(q: seq<T>)
    ensures q != [] ==> multiset(q)[q[0]] > 0 && multiset(q)[q[|q| - 1]] > 0
  {
    assert q != [] ==> q[0] in q && q[|q| - 1] in q;
  }

  /** When all tasks have ended undisturbed, nothing is left in the queues or waiting for its turn. */
  lemma NothingLeft(c: Config, s: State)
    requires c.Valid() && Inv(c, s) && s.phase != Working && Undisturbed(s.flags)
    ensures s.jobs == [] && s.audio == [] && s.playback.pending == map[]
    ensures s.playback.nextIndex == Submitted(c, s.speech)
  {
    hide Outcome, Ledger, Unplayed, Text, Order;
    GoneBounds(s.workers);
    EndsAreCounted(s.jobs);
    EndsAreCounted(s.audio);
    var n, next := Submitted(c, s.speech), s.playback.nextIndex;
    forall i: nat
      ensures Places(s, i) == InPlayback(s.playback, i)
    {
      assert Synthesizing(i) !in s.workers && Holding(i, true) !in s.workers && Holding(i, false) !in s.workers;
    }
    assert At(c, s, next) && At(c, s, n);
    assert Places(s, next) == InPlayback(s.playback, next) && Places(s, n) == InPlayback(s.playback, n);
    forall i: nat
      ensures i !in s.playback.pending
    {
      assert At(c, s, i) && Places(s, i) == InPlayback(s.playback, i);
    }
  }

  /** A run that returns has said the whole reply, and played or skipped each of its segments once, in order:
      played exactly those whose synthesis succeeded. */
  lemma NormalCompletion(c: Config, run: seq<State>, k: nat)
    requires c.Valid() && IsRun(c, run) && k < |run| && run[k].phase.Ended? && run[k].phase.ok
    ensures Complete(c, run[k])
  {
    RunInv(c, run, k);
    CompletionOf(c, run[k]);
  }

  ghost predicate Complete(c: Config, s: State)
    requires c.Valid()
  {
    && s.speech.fullText == Concat(c.reply)
    && Heard(s.events) == Concat(c.reply)
    && s.speech.completed == c.settings.ReplyTexts("", c.reply)
    && SegmentTexts(s.events) == s.speech.completed && SegmentIndices(s.events) == UpTo(|s.speech.completed|)
    && JobIndices(s.events) == UpTo(Submitted(c, s.speech))
    && c.settings.NonSpace(Concat(s.speech.completed)) == c.settings.NonSpace(s.speech.fullText)
    && s.playback.nextIndex == Submitted(c, s.speech) && s.playback.pending == map[]
    && PlaybackIndices(s.events) == UpTo(Submitted(c, s.speech))
    && forall i: nat :: i < Submitted(c, s.speech) ==> Delivered(s, i)
  }

  /** Segment `i` was announced as ready once, with its outcome, and then played from start to finish or skipped. */
  ghost predicate Delivered(s: State, i: nat) {
    var log := multiset(s.events);
    if i in s.owned.synthesized then
      && log[AudioReady(i, true)] == 1 && log[AudioReady(i, false)] == 0
      && PlaybackStarted(i) in s.events && PlaybackSkipped(i) !in s.events && log[PlaybackFinished(i)] == 1
    else
      && log[AudioReady(i, true)] == 0 && log[AudioReady(i, false)] == 1
      && PlaybackStarted(i) !in s.events && PlaybackSkipped(i) in s.events && log[PlaybackFinished(i)] == 0
  }

  lemma DeliveredAt(c: Config, s: State, i: nat)
    requires c.Valid() && Inv(c, s) && s.phase != Working && Undisturbed(s.flags)
    requires s.jobs == [] && i < s.playback.nextIndex == Submitted(c, s.speech)
    ensures Delivered(s, i)
  {
    assert At(c, s, i) && Ready(c, s, i) && Finished(s.events, s.playback, i);
    assert Synthesizing(i) !in s.workers && Holding(i, true) !in s.workers && Holding(i, false) !in s.workers;
    assert UpTo(Submitted(c, s.speech))[i] == i;
    PlaybackIndexHasEvent(s.events, i);
  }

  lemma CompletionOf(c: Config, s: State)
    requires c.Valid() && Inv(c, s) && s.phase != Working && s.phase.ok
    ensures Complete(c, s)
  {
    NothingLeft(c, s);
    c.settings.ReplyLosesNothing(c.reply);
    assert s.speech.fullText + "" == s.speech.fullText;
    forall i: nat | i < Submitted(c, s.speech)
      ensures Delivered(s, i)
    {
      DeliveredAt(c, s, i);
    }
  }

  // ----- Ownership -----

  /** In every state each successful result is registered for cleanup or has been handed to discard, and
      only successful results ever are; never twice, unless its first discard failed. */
  lemma AudioIsOwned(c: Config, run: seq<State>, k: nat)
    requires c.Valid() && IsRun(c, run) && k < |run|
    ensures var owned := run[k].owned;
            && (forall i: nat :: i in owned.synthesized <==> i in owned.cleanup || owned.discards[i] > 0)
            && (forall i: nat :: owned.discards[i] <= if owned.discardFailed == Some(i) then 2 else 1)
  {
    RunInv(c, run, k);
    var s := run[k];
    forall i: nat
      ensures i in s.owned.synthesized <==> i in s.owned.cleanup || s.owned.discards[i] > 0
      ensures s.owned.discards[i] <= if s.owned.discardFailed == Some(i) then 2 else 1
    {
      assert At(c, s, i);
    }
  }

  ghost predicate AllDiscarded(owned: Ownership) {
    forall i: nat :: i in owned.synthesized ==> owned.discards[i] > 0
  }

  /** What is registered besides the result whose discard raised. */
  function Unattended(owned: Ownership): set<nat> {
    if owned.discardFailed.Some? then owned.cleanup - {owned.discardFailed.value} else owned.cleanup
  }

  /** A result that is being discarded is registered still, and has been handed to discard once. */
  lemma DiscardingOf(c: Config, s: State)
    requires c.Valid() && Inv(c, s) && s.playback.player.Discarding?
    ensures s.playback.player.index in s.owned.cleanup && s.owned.discards[s.playback.player.index] == 1
  {
    assert At(c, s, s.playback.player.index);
  }

  lemma PlayEndsOf(c: Config, s: State, success: bool, error: bool)
    requires c.Valid() && Inv(c, s) && CanPlayEnd(s, success, error)
    ensures var t := AfterPlayEnds(s, success, error);
            && Inv(c, t) && t.playback.player.Discarding?
            && t.playback.player.index in t.owned.cleanup && t.owned.discards[t.playback.player.index] == 1
  {
    hide Inv;
    StepKeeps(c, s, PlayEnds(success, error));
    DiscardingOf(c, AfterPlayEnds(s, success, error));
  }

  /** A result that a worker holds is registered, and nobody has discarded it. */
  lemma HeldOf(c: Config, s: State, w: nat, i: nat)
    requires c.Valid() && Inv(c, s) && w < |s.workers| && s.workers[w] == Holding(i, true)
    ensures i in s.owned.cleanup && s.owned.discards[i] == 0
  {
    assert At(c, s, i);
    assert s.workers[w] in multiset(s.workers);
    assert s.phase == Working;
  }

  /** However a run ends, all audio has been handed to discard exactly when stopping the player did not raise
      or nothing was left to clean up then.  After a stop every result has been discarded once, and only the
      one whose discard by the player failed twice. */
  lemma AudioIsDiscarded(c: Config, run: seq<State>, k: nat)
    requires c.Valid() && IsRun(c, run) && k < |run| && run[k].phase.Ended?
    ensures var s := run[k];
            && (AllDiscarded(s.owned) <==> s.phase.playerStopped || Unattended(s.owned) == {})
            && (s.phase.playerStopped ==> DiscardedOnce(s.owned))
  {
    RunInv(c, run, k);
    DiscardedOf(c, run[k]);
  }

  /** Each result was discarded once, the one whose discard by the player failed twice. */
  ghost predicate DiscardedOnce(owned: Ownership) {
    forall i: nat ::
      owned.discards[i] == if i !in owned.synthesized then 0 else if owned.discardFailed == Some(i) then 2 else 1
  }

  lemma DiscardedOf(c: Config, s: State)
    requires c.Valid() && Inv(c, s) && s.phase.Ended?
    ensures AllDiscarded(s.owned) <==> s.phase.playerStopped || Unattended(s.owned) == {}
    ensures s.phase.playerStopped ==> DiscardedOnce(s.owned)
  {
    forall i: nat
      ensures i in s.owned.synthesized && s.phase.playerStopped ==> s.owned.discards[i] > 0
      ensures i in s.owned.synthesized && !s.phase.playerStopped ==>
                (s.owned.discards[i] == 0 <==> i in Unattended(s.owned))
      ensures i in Unattended(s.owned) ==> i in s.owned.synthesized
      ensures s.phase.playerStopped ==>
                s.owned.discards[i] ==
                if i !in s.owned.synthesized then 0 else if s.owned.discardFailed == Some(i) then 2 else 1
    {
      assert At(c, s, i);
    }
  }

  ghost predicate Reachable(c: Config, s: State)
    requires c.Valid()
  {
    exists run :: IsRun(c, run) && run[|run| - 1] == s
  }

  lemma ReachableNext(c: Config, s: State, a: Action)
    requires c.Valid() && Reachable(c, s) && Enabled(c, s, a)
    ensures Reachable(c, Do(c, s, a))
  {
    var run :| IsRun(c, run) && run[|run| - 1] == s;
    var longer := run + [Do(c, s, a)];
    forall i | 0 <= i < |longer| - 1
      ensures Step(c, longer[i], longer[i + 1])
    {
      if i < |run| - 1 {
        assert Step(c, run[i], run[i + 1]);
      } else {
        assert Enabled(c, longer[i], a) && longer[i + 1] == Do(c, longer[i], a);
      }
    }
    assert IsRun(c, longer) && longer[|longer| - 1] == Do(c, s, a);
  }

  lemma InitialIsReachable(c: Config)
    requires c.Valid()
    ensures Reachable(c, Initial(c))
  {
    assert IsRun(c, [Initial(c)]);
  }

  function PlainSettings(): Settings {
    Settings(1, 42, 25, c => c == ' ', c => c != ' ', c => '0' <= c <= '9')
  }

  lemma OneLetterReply()
    ensures PlainSettings().Feed("", "a") == ([], "a")
    ensures PlainSettings().Flush("a") == ["a"]
  {
    var settings := PlainSettings();
    assert "" + "a" == "a";
    assert forall final: bool :: settings.SentenceBoundary("a", final) == None by {
      assert forall final: bool :: !settings.Emittable("a", 0, final);
      assert forall final: bool :: settings.BoundaryFrom("a", 1, final) == None;
    }
    assert WordEnds("a", 0) == [1] by {
      assert LettersEnd("a", 1) == 1 && WordEnd("a", 0) == 1 && WordEnds("a", 1) == [];
    }
    assert settings.ForcedBoundary("a") == None;
    assert settings.LStrip("a") == "a" && settings.RStrip("a") == "a";
  }

  /** One worker speaks the reply "a", which is one segment, spoken at the end. */
  ghost predicate OneLetter(c: Config) {
    && c.Valid() && c.audioEnabled && c.workerCount == 1 && c.reply == ["a"]
    && c.settings.Feed("", "a") == ([], "a") && c.settings.Flush("a") == ["a"]
  }

  /** Two actions in a row. */
  lemma ReachableTwice(c: Config, s: State, a: Action, b: Action)
    requires c.Valid() && Reachable(c, s) && Enabled(c, s, a) && Enabled(c, Do(c, s, a), b)
    ensures Reachable(c, Do(c, Do(c, s, a), b))
  {
    ReachableNext(c, s, a);
    ReachableNext(c, Do(c, s, a), b);
  }

  /** The stream is read; the letter waits in the segmenter's buffer. */
  const LETTER_BUFFERED: State := State(
    Speech([], "a", "a", [], Streaming), [], [Idle], [], Playback(map[], 0, 0, Waiting),
    Ownership({}, {}, multiset{}, None), Flags(false, false, false, false), Working, [AssistantDelta("a")])

  const LETTER_QUEUED: State := LETTER_BUFFERED.(
    speech := Speech([], "a", "", ["a"], Queueing([], true)), jobs := [Job(0)],
    events := [AssistantDelta("a"), AssistantSegment(0, "a"), TtsJob(0)])

  const LETTER_SPOKEN: State := LETTER_QUEUED.(
    jobs := [], workers := [Holding(0, true)], owned := Ownership({0}, {0}, multiset{}, None))

  /** The run is cancelled: the worker ends and says farewell. */
  const WORKER_ENDED: State := LETTER_SPOKEN.(
    workers := [WorkerDone], audio := [WorkerGone], flags := Flags(false, false, true, true))

  const ALL_ENDED: State := WORKER_ENDED.(
    speech := Speech([], "a", "", ["a"], ProducerDone), jobs := [NoMoreJobs],
    playback := Playback(map[], 0, 0, PlayerDone))

  lemma LetterIsBuffered(c: Config)
    requires OneLetter(c)
    ensures Reachable(c, LETTER_BUFFERED)
  {
    hide Reachable;
    InitialIsReachable(c);
    var s := Initial(c);
    assert "" + "a" == "a" && s.speech.incoming[1..] == [] && s.workers == [Idle] && s.events == [];
    assert [] + [AssistantDelta("a")] == [AssistantDelta("a")];
    ReachableTwice(c, s, ReceiveDelta, BatchDone);
  }

  lemma LetterIsQueued(c: Config)
    requires OneLetter(c)
    ensures Reachable(c, LETTER_QUEUED)
  {
    hide Reachable;
    LetterIsBuffered(c);
    ReachableTwice(c, LETTER_BUFFERED, EndStream, QueueSegment);
    assert [] + ["a"] == ["a"] && ["a"][1..] == [] && [] + [Job(0)] == [Job(0)];
    assert LETTER_BUFFERED.events + [AssistantSegment(0, "a")] + [TtsJob(0)] == LETTER_QUEUED.events;
  }

  lemma LetterIsSpoken(c: Config)
    requires OneLetter(c)
    ensures Reachable(c, LETTER_SPOKEN)
  {
    hide Reachable;
    LetterIsQueued(c);
    ReachableTwice(c, LETTER_QUEUED, TakeJob(0), Synthesized(0, true));
    assert LETTER_QUEUED.jobs[1..] == [] && {} + {0} == {0};
    assert [Idle][0 := Synthesizing(0)][0 := Holding(0, true)] == [Holding(0, true)];
  }

  lemma WorkerCanEnd(c: Config)
    requires OneLetter(c)
    ensures Reachable(c, WORKER_ENDED)
  {
    hide Reachable;
    LetterIsSpoken(c);
    ReachableNext(c, LETTER_SPOKEN, CancelRun);
    var s := Do(c, LETTER_SPOKEN, CancelRun);
    ReachableTwice(c, s, WorkerQuits(0, false), WorkerExits(0));
    assert s.workers[0 := Leaving][0 := WorkerDone] == [WorkerDone] && s.audio + [WorkerGone] == [WorkerGone];
  }

  lemma AllCanEnd(c: Config)
    requires OneLetter(c)
    ensures Reachable(c, ALL_ENDED)
  {
    hide Reachable;
    WorkerCanEnd(c);
    ReachableTwice(c, WORKER_ENDED, PlayerQuits(false), BatchDone);
    var stopping := Do(c, Do(c, WORKER_ENDED, PlayerQuits(false)), BatchDone);
    ReachableTwice(c, stopping, PutSentinel, ProducerExits);
    assert stopping.jobs + [NoMoreJobs] == [NoMoreJobs];
  }

  lemma AudioLeftBehind(c: Config)
    requires OneLetter(c)
    ensures exists s: State :: Reachable(c, s) && s.phase.Ended? && !AllDiscarded(s.owned)
  {
    hide Reachable;
    AllCanEnd(c);
    ReachableTwice(c, ALL_ENDED, GroupEnds, PlayerStopped(false));
    var s := Do(c, Do(c, ALL_ENDED, GroupEnds), PlayerStopped(false));
    assert 0 in s.owned.synthesized && s.owned.discards[0] == 0;
  }

  /** The exception is real: a player whose stop raises after a cancelled run leaves audio undiscarded. */
  lemma AudioCanBeLeftBehind()
    ensures exists c: Config, s: State :: c.Valid() && Reachable(c, s) && s.phase.Ended? && !AllDiscarded(s.owned)
  {
    OneLetterReply();
    AudioLeftBehind(Config(PlainSettings(), 1, true, ["a"]));
  }

  // ----- Termination -----

  function Sum<T>(q: seq<T>, weight: T -> nat): nat {
    if q == [] then 0 else Sum(q[..|q| - 1], weight) + weight(q[|q| - 1])
  }

  function JobWeight(job: QueuedJob): nat {
    if job.Job? then 9 else 1
  }

  function WorkerWeight(w: Worker): nat {
    match w
    case Idle => 4
    case Synthesizing(_) => 12
    case Holding(_, _) => 11
    case Leaving => 3
    case WorkerDone => 0
  }

  function AudioWeight(a: QueuedAudio): nat {
    if a.Audio? then 6 else 2
  }

  function PlaybackWeight(p: Playback): nat {
    4 * |p.pending| +
    match p.player
    case Waiting => 1
    case Draining => 2
    case Playing(_) => 4
    case Discarding(_, _) => 3
    case PlayerDone => 0
  }

  function SpeechWeight(c: Config, speech: Speech): nat
    requires c.Valid()
  {
    var later := 2 * |speech.incoming| + 10 * |c.settings.ReplyTexts(speech.buffer, speech.incoming)|;
    match speech.producer
    case Streaming => 2 * c.Workers() + 3 + later
    case Queueing(batch, false) => 2 * c.Workers() + 4 + 10 * |batch| + later
    case Queueing(batch, true) => 2 * c.Workers() + 2 + 10 * |batch|
    case Stopping(left) => 2 * left + 1
    case ProducerDone => 0
  }

  function FlagsWeight(flags: Flags): nat {
    (if flags.token then 0 else 1) + (if flags.cancelled then 0 else 1) + (if flags.aborting then 0 else 1)
  }

  function PhaseWeight(phase: Phase): nat {
    match phase
    case Working => 3
    case StoppingPlayer(_) => 2
    case Cleaning(_) => 1
    case Ended(_, _) => 0
  }

  /** Remaining deltas and segments, queued jobs, sentinels and audio, each weighted by the steps it still needs. */
  function Measure(c: Config, s: State): nat
    requires c.Valid()
  {
    SpeechWeight(c, s.speech) + Sum(s.jobs, JobWeight) + Sum(s.workers, WorkerWeight) + Sum(s.audio, AudioWeight)
    + PlaybackWeight(s.playback) + FlagsWeight(s.flags) + PhaseWeight(s.phase)
  }

  lemma SumAppend<T>(q: seq<T>, last: T, weight: T -> nat)
    ensures Sum(q + [last], weight) == Sum(q, weight) + weight(last)
  {
    assert (q + [last])[..|q|] == q;
  }

  lemma {:induction false} SumDequeue<T>(q: seq<T>, weight: T -> nat)
    requires q != []
    ensures Sum(q, weight) == weight(q[0]) + Sum(q[1..], weight)
  {
    var last := |q| - 1;
    if last > 0 {
      SumDequeue(q[..last], weight);
      assert q[1..][..last - 1] == q[..last][1..];
    } else {
      assert q[..0] == [] && q[1..] == [];
    }
  }

  lemma {:induction false} SumUpdate<T>(q: seq<T>, k: nat, to: T, weight: T -> nat)
    requires k < |q|
    ensures Sum(q[k := to], weight) == Sum(q, weight) - weight(q[k]) + weight(to)
  {
    var last := |q| - 1;
    if k == last {
      assert q[k := to][..last] == q[..last];
    } else {
      assert q[k := to][..last] == q[..last][k := to];
      SumUpdate(q[..last], k, to, weight);
    }
  }

  lemma PendingRemoval(pending: map<nat, bool>, k: nat)
    requires k in pending
    ensures |pending - {k}| == |pending| - 1
  {
    assert (pending - {k}).Keys == pending.Keys - {k};
    assert |pending.Keys - {k}| == |pending.Keys| - 1;
  }

  lemma StreamProgress(c: Config, s: State, a: Action)
    requires c.Valid() && Enabled(c, s, a) && (a.ReceiveDelta? || a.EndStream? || a.BatchDone?)
    requires s.speech.producer.Queueing? && s.speech.producer.closing ==> s.speech.incoming == []
    ensures Measure(c, Do(c, s, a)) < Measure(c, s)
  {
  }

  lemma ProducerProgress(c: Config, s: State, a: Action)
    requires c.Valid() && Enabled(c, s, a)
    requires a.QueueSegment? || a.ProducerQuits? || a.PutSentinel? || a.ProducerExits?
    ensures Measure(c, Do(c, s, a)) < Measure(c, s)
  {
    hide Settings.ReplyTexts;
    if a.QueueSegment? && c.audioEnabled {
      SumAppend(s.jobs, Job(|s.speech.completed|), JobWeight);
    } else if a.PutSentinel? {
      SumAppend(s.jobs, NoMoreJobs, JobWeight);
    }
  }

  lemma WorkerProgress(c: Config, s: State, a: Action, w: nat)
    requires c.Valid() && Enabled(c, s, a)
    requires (a.TakeJob? || a.Synthesized? || a.PublishAudio? || a.WorkerQuits? || a.WorkerExits?) && a.worker == w
    ensures Measure(c, Do(c, s, a)) < Measure(c, s)
  {
    hide Sum, SpeechWeight, PlaybackWeight, PhaseWeight;
    SumUpdate(s.workers, w, Do(c, s, a).workers[w], WorkerWeight);
    if a.TakeJob? {
      SumDequeue(s.jobs, JobWeight);
    } else if a.PublishAudio? {
      SumAppend(s.audio, Audio(s.workers[w].index, s.workers[w].success), AudioWeight);
    } else if a.WorkerExits? {
      SumAppend(s.audio, WorkerGone, AudioWeight);
    }
  }

  lemma QueueProgress(c: Config, s: State, a: Action)
    requires c.Valid() && Enabled(c, s, a)
    requires a.TakeAudio? || a.SkipNext? || a.StartNext?
    ensures Measure(c, Do(c, s, a)) < Measure(c, s)
  {
    if a.TakeAudio? {
      SumDequeue(s.audio, AudioWeight);
    } else {
      PendingRemoval(s.playback.pending, s.playback.nextIndex);
    }
  }

  lemma PlayerProgress(c: Config, s: State, a: Action)
    requires c.Valid() && Enabled(c, s, a)
    requires a.DrainDone? || a.PlayEnds? || a.DiscardEnds? || a.DiscardRaises? || a.PlayerQuits?
    ensures Measure(c, Do(c, s, a)) < Measure(c, s)
  {
  }

  lemma ClosingIsLast(c: Config, s: State)
    requires c.Valid() && Inv(c, s)
    ensures s.speech.producer.Queueing? && s.speech.producer.closing ==> s.speech.incoming == []
  {
  }

  /** Every action of every task, and every interruption, makes the measure smaller. */
  lemma StepDecreases(c: Config, s: State, a: Action)
    requires c.Valid() && Inv(c, s) && Enabled(c, s, a)
    ensures Measure(c, Do(c, s, a)) < Measure(c, s)
  {
    hide Inv;
    if a.TakeJob? || a.Synthesized? || a.PublishAudio? || a.WorkerQuits? || a.WorkerExits? {
      WorkerProgress(c, s, a, a.worker);
    } else if a.TakeAudio? || a.SkipNext? || a.StartNext? {
      QueueProgress(c, s, a);
    } else if a.DrainDone? || a.PlayEnds? || a.DiscardEnds? || a.DiscardRaises? || a.PlayerQuits? {
      PlayerProgress(c, s, a);
    } else if a.ReceiveDelta? || a.EndStream? || a.BatchDone? {
      ClosingIsLast(c, s);
      StreamProgress(c, s, a);
    } else if a.QueueSegment? || a.ProducerQuits? || a.PutSentinel? || a.ProducerExits? {
      ProducerProgress(c, s, a);
    }
  }

  /** No run is longer than the measure of its start: the request always ends. */
  lemma {:induction false} RunsAreBounded(c: Config, run: seq<State>, k: nat)
    requires c.Valid() && IsRun(c, run) && k < |run|
    ensures k + Measure(c, run[k]) <= Measure(c, Initial(c))
  {
    hide Inv, Do, Enabled, Measure;
    if k > 0 {
      RunsAreBounded(c, run, k - 1);
      RunInv(c, run, k - 1);
      assert Step(c, run[k - 1], run[k - 1 + 1]);
      var a :| Enabled(c, run[k - 1], a) && run[k] == Do(c, run[k - 1], a);
      StepDecreases(c, run[k - 1], a);
    }
  }

  predicate Environment(a: Action) {
    a.SetToken? || a.CancelRun? || a.AbortGroup?
  }

  /** Actions by which something raises. */
  predicate IsFailure(a: Action) {
    match a
    case ProducerQuits(error) => error
    case WorkerQuits(_, error) => error
    case PlayEnds(_, error) => error
    case DiscardRaises(_) => true
    case PlayerQuits(error) => error
    case PlayerStopped(success) => !success
    case _ => false
  }

  predicate OfProducer(a: Action) {
    a.ReceiveDelta? || a.EndStream? || a.QueueSegment? || a.BatchDone? || a.ProducerQuits? || a.PutSentinel?
    || a.ProducerExits?
  }

  predicate OfWorker(a: Action, w: nat) {
    (a.TakeJob? || a.Synthesized? || a.PublishAudio? || a.WorkerQuits? || a.WorkerExits?) && a.worker == w
  }

  predicate OfPlayer(a: Action) {
    a.TakeAudio? || a.SkipNext? || a.StartNext? || a.DrainDone? || a.PlayEnds? || a.DiscardEnds? || a.PlayerQuits?
  }

  ghost predicate ProducerCanMove(c: Config, s: State) {
    exists a :: Enabled(c, s, a) && OfProducer(a) && !IsFailure(a)
  }

  ghost predicate WorkerCanMove(c: Config, s: State, w: nat) {
    exists a :: Enabled(c, s, a) && OfWorker(a, w) && !IsFailure(a)
  }

  ghost predicate PlayerCanMove(c: Config, s: State) {
    exists a :: Enabled(c, s, a) && OfPlayer(a) && !IsFailure(a)
  }

  /** Some task can take a step in which nothing raises. */
  ghost predicate CanMove(c: Config, s: State) {
    exists a :: Enabled(c, s, a) && !Environment(a) && !IsFailure(a)
  }

  /** The producer never waits: its queue has no bound. */
  lemma ProducerMoves(c: Config, s: State)
    requires s.phase == Working && s.speech.producer != ProducerDone
    ensures ProducerCanMove(c, s)
  {
    var a := match s.speech.producer
      case Streaming =>
        if s.flags.token then ProducerQuits(false) else if s.speech.incoming != [] then ReceiveDelta else EndStream
      case Queueing(batch, _) =>
        if batch == [] then BatchDone else if s.flags.token then ProducerQuits(false) else QueueSegment
      case Stopping(left) => if left > 0 then PutSentinel else ProducerExits
      case ProducerDone => ProducerExits;
    assert Enabled(c, s, a) && OfProducer(a) && !IsFailure(a);
  }

  /** A worker waits only for a producer that is still at work, and never once there is a job: when the producer
      is done, a sentinel is left for it. */
  lemma WorkerMoves(c: Config, s: State, w: nat)
    requires c.Valid() && Inv(c, s) && s.phase == Working && w < |s.workers| && s.workers[w] != WorkerDone
    ensures WorkerCanMove(c, s, w) || (s.workers[w] == Idle && s.jobs == [] && s.speech.producer != ProducerDone)
  {
    if s.workers[w] == Idle && s.speech.producer == ProducerDone {
      JobsForIdle(c, s, w);
    }
    if s.workers[w] != Idle || s.jobs != [] {
      var a := match s.workers[w]
        case Idle => TakeJob(w)
        case Synthesizing(_) => Synthesized(w, true)
        case Holding(_, _) => if s.flags.token then WorkerQuits(w, false) else PublishAudio(w)
        case Leaving => WorkerExits(w)
        case WorkerDone => WorkerExits(w);
      assert Enabled(c, s, a) && OfWorker(a, w) && !IsFailure(a);
    }
  }

  lemma JobsForIdle(c: Config, s: State, w: nat)
    requires |s.workers| == c.Workers() && Sentinels(c, ProducerDone, s.jobs, s.workers, Broken(s.flags))
    requires w < |s.workers| && s.workers[w] == Idle
    ensures s.jobs != []
  {
    GoneBounds(s.workers);
  }

  lemma AudioForPlayer(c: Config, s: State)
    requires WorkersDone(s.workers) && |s.workers| == c.Workers() && PlayerShape(c, s.playback, s.flags)
    requires Farewells(c, s.workers, s.audio, s.playback, Broken(s.flags)) && s.playback.player == Waiting
    ensures s.audio != []
  {
    GoneBounds(s.workers);
  }

  /** The player waits only for workers that are still at work, and never once there is audio: when they are
      done, a farewell is left for it. */
  lemma PlayerMoves(c: Config, s: State)
    requires c.Valid() && Inv(c, s) && s.phase == Working && s.playback.player != PlayerDone
    ensures PlayerCanMove(c, s) || (s.playback.player == Waiting && s.audio == [] && !WorkersDone(s.workers))
  {
    if s.playback.player == Waiting && WorkersDone(s.workers) {
      AudioForPlayer(c, s);
    }
    PlayerActs(c, s);
  }

  lemma PlayerActs(c: Config, s: State)
    requires s.phase == Working && s.playback.player != PlayerDone
    ensures PlayerCanMove(c, s) || (s.playback.player == Waiting && s.audio == [])
  {
    if s.playback.player != Waiting || s.audio != [] {
      var next := s.playback.nextIndex;
      var a := match s.playback.player
        case Waiting => TakeAudio
        case Draining =>
          if next !in s.playback.pending then DrainDone
          else if s.flags.token then PlayerQuits(false)
          else if s.playback.pending[next] then StartNext else SkipNext
        case Playing(_) => PlayEnds(!s.flags.token, false)
        case Discarding(_, _) => DiscardEnds
        case PlayerDone => TakeAudio;
      assert Enabled(c, s, a) && OfPlayer(a) && !IsFailure(a);
    }
  }

  lemma AnyMove(c: Config, s: State, w: nat)
    ensures ProducerCanMove(c, s) || WorkerCanMove(c, s, w) || PlayerCanMove(c, s) ==> CanMove(c, s)
  {
    hide Enabled;
    if ProducerCanMove(c, s) {
      var a :| Enabled(c, s, a) && OfProducer(a) && !IsFailure(a);
    } else if WorkerCanMove(c, s, w) {
      var a :| Enabled(c, s, a) && OfWorker(a, w) && !IsFailure(a);
    } else if PlayerCanMove(c, s) {
      var a :| Enabled(c, s, a) && OfPlayer(a) && !IsFailure(a);
    }
  }

  lemma EndMoves(c: Config, s: State)
    requires s.phase.StoppingPlayer? || s.phase.Cleaning? || CanGroupEnd(s)
    ensures CanMove(c, s)
  {
    var a := if s.phase.StoppingPlayer? then PlayerStopped(true) else if s.phase.Cleaning? then DiscardRest else GroupEnds;
    assert Enabled(c, s, a) && !Environment(a) && !IsFailure(a);
  }

  /** The three tasks cannot deadlock: in every reachable state that is not final some task can take a step in
      which nothing raises. */
  lemma NoDeadlock(c: Config, run: seq<State>, k: nat)
    requires c.Valid() && IsRun(c, run) && k < |run| && !run[k].phase.Ended?
    ensures CanMove(c, run[k])
  {
    RunInv(c, run, k);
    hide Inv, IsRun, CanMove, ProducerCanMove, WorkerCanMove, PlayerCanMove;
    var s := run[k];
    if s.phase != Working {
      EndMoves(c, s);
    } else if s.speech.producer != ProducerDone {
      ProducerMoves(c, s);
      AnyMove(c, s, 0);
    } else if !WorkersDone(s.workers) {
      var w: nat :| w < |s.workers| && s.workers[w] != WorkerDone;
      WorkerMoves(c, s, w);
      AnyMove(c, s, w);
    } else if s.playback.player != PlayerDone {
      PlayerMoves(c, s);
      AnyMove(c, s, 0);
    } else {
      EndMoves(c, s);
    }
  }
}
