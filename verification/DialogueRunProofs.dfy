/** What every run of the dialogue pipeline keeps, and how it ends. */
module DialogueRunProofs {
  import opened Options
  import opened Segmentation
  import opened DialogueRun
  import opened DialogueReports

  // ----- The invariant, part by part -----

  function IsGone(w: Worker): nat {
    if w.Leaving? || w.WorkerDone? then 1 else 0
  }

  /** Workers that will take no further job. */
  function Gone(workers: seq<Worker>): nat {
    if workers == [] then 0 else Gone(workers[..|workers| - 1]) + IsGone(workers[|workers| - 1])
  }

  function SentinelsToCome(c: Config, p: Producer): nat {
    match p
    case Stopping(left) => left
    case ProducerDone => 0
    case _ => c.Workers()
  }

  predicate Undisturbed(flags: Flags) {
    !flags.failed && !flags.cancelled && !flags.token
  }

  /** The tasks, the flags and the phases fit together. */
  ghost predicate Shape(c: Config, s: State) {
    && |s.workers| == c.Workers()
    && (s.speech.producer.Stopping? ==> s.speech.producer.sentinels <= c.Workers())
    && (s.flags.aborting ==> s.flags.failed || s.flags.cancelled)
    && (s.flags.cancelled ==> s.flags.aborting)
    && (s.phase != Working ==>
          s.speech.producer == ProducerDone && s.playback.player == PlayerDone && WorkersDone(s.workers))
    && (s.phase.StoppingPlayer? || s.phase.Cleaning? ==> (s.phase.ok <==> Undisturbed(s.flags)))
    && (s.phase.Ended? && s.phase.ok ==> Undisturbed(s.flags) && s.phase.playerStopped)
    && (!c.audioEnabled ==> s.playback.player == PlayerDone && s.jobs == [] && s.audio == [])
  }

  ghost predicate PlayerShape(c: Config, playback: Playback, flags: Flags) {
    && (playback.player == Waiting ==> playback.finishedWorkers < c.Workers())
    && ((playback.player.Playing? || playback.player.Discarding?) ==> playback.player.index == playback.nextIndex)
    && (playback.player.Discarding? && !playback.player.finished ==> Broken(flags))
  }

  /** The segments queued so far and those to come are the segments of the reply. */
  ghost predicate Text(c: Config, speech: Speech, broken: bool)
    requires c.Valid()
  {
    && speech.fullText + Concat(speech.incoming) == Concat(c.reply)
    && match speech.producer
       case Streaming =>
         speech.completed + c.settings.ReplyTexts(speech.buffer, speech.incoming) == c.settings.ReplyTexts("", c.reply)
       case Queueing(batch, closing) =>
         && (closing ==> speech.incoming == [])
         && speech.completed + (batch + if closing then [] else c.settings.ReplyTexts(speech.buffer, speech.incoming))
            == c.settings.ReplyTexts("", c.reply)
       case _ => !broken ==> speech.incoming == [] && speech.completed == c.settings.ReplyTexts("", c.reply)
  }

  /** One sentinel per worker, behind all jobs. */
  ghost predicate Sentinels(c: Config, p: Producer, jobs: seq<QueuedJob>, workers: seq<Worker>, broken: bool) {
    && (forall a, b :: 0 <= a < b < |jobs| && jobs[a].NoMoreJobs? ==> jobs[b].NoMoreJobs?)
    && (p.Streaming? || p.Queueing? ==> NoMoreJobs !in jobs)
    && SentinelsToCome(c, p) + multiset(jobs)[NoMoreJobs] + Gone(workers) >= c.Workers()
    && (!broken ==>
          && SentinelsToCome(c, p) + multiset(jobs)[NoMoreJobs] + Gone(workers) == c.Workers()
          && (Gone(workers) > 0 ==> forall a :: 0 <= a < |jobs| ==> jobs[a].NoMoreJobs?))
  }

  /** The player hears of every worker once, after all that worker's audio. */
  ghost predicate Farewells(c: Config, workers: seq<Worker>, audio: seq<QueuedAudio>, playback: Playback, broken: bool) {
    && multiset(audio)[WorkerGone] + playback.finishedWorkers == multiset(workers)[WorkerDone]
    && (WorkersDone(workers) && audio != [] ==> audio[|audio| - 1] == WorkerGone)
    && (playback.player == PlayerDone && !broken && c.audioEnabled ==>
          playback.finishedWorkers == c.Workers() && playback.nextIndex !in playback.pending)
  }

  /** Playback starts or skips 0, 1, 2, ... without gap or repetition. */
  ghost predicate Order(events: seq<Event>, playback: Playback, broken: bool) {
    if playback.player == PlayerDone then
      PlaybackIndices(events) == UpTo(playback.nextIndex)
      || (broken && PlaybackIndices(events) == UpTo(playback.nextIndex + 1))
    else
      PlaybackIndices(events) == UpTo(Played(playback))
  }

  // The rest of the invariant speaks of one segment index at a time.

  function InAudio(audio: seq<QueuedAudio>, i: nat): nat {
    multiset(audio)[Audio(i, true)] + multiset(audio)[Audio(i, false)]
  }

  function InPlayback(p: Playback, i: nat): nat {
    (if i in p.pending then 1 else 0) + (if i < Played(p) then 1 else 0)
  }

  /** How many places segment `i` is in: queued, at a worker, finished, waiting for its turn, or played. */
  function Places(s: State, i: nat): nat {
    multiset(s.jobs)[Job(i)] + InWorkers(s.workers, i) + InAudio(s.audio, i) + InPlayback(s.playback, i)
  }

  /** Segment `i` is in at most one place, and in one as long as nothing interrupts the run. */
  ghost predicate Custody(c: Config, s: State, i: nat) {
    && Places(s, i) <= (if i < Submitted(c, s.speech) then 1 else 0)
    && (!Broken(s.flags) && i < Submitted(c, s.speech) ==> Places(s, i) == 1)
  }

  /** What is said of segment `i` agrees with whether its synthesis succeeded. */
  ghost predicate Outcome(c: Config, s: State, i: nat) {
    var ok := i in s.owned.synthesized;
    && (ok ==> multiset(s.jobs)[Job(i)] == 0 && multiset(s.workers)[Synthesizing(i)] == 0)
    && (multiset(s.workers)[Holding(i, true)] > 0 ==> ok)
    && (multiset(s.workers)[Holding(i, false)] > 0 ==> !ok)
    && (multiset(s.audio)[Audio(i, true)] > 0 ==> ok)
    && (multiset(s.audio)[Audio(i, false)] > 0 ==> !ok)
    && (i in s.playback.pending ==> (s.playback.pending[i] <==> ok))
    && (i >= Submitted(c, s.speech) ==> !ok && PlaybackSkipped(i) !in s.events)
    && (PlaybackStarted(i) in s.events ==> ok)
    && (PlaybackSkipped(i) in s.events ==>
          !ok && multiset(s.jobs)[Job(i)] == 0 && multiset(s.workers)[Synthesizing(i)] == 0)
  }

  /** Is `i` registered for cleanup and not yet handed to discard by the player? */
  predicate Owed(owned: Ownership, player: Player, i: nat) {
    && i in owned.cleanup && owned.discardFailed != Some(i)
    && player != Discarding(i, true) && player != Discarding(i, false)
  }

  predicate CleanedUp(phase: Phase) {
    phase.Ended? && phase.playerStopped
  }

  /** A successful result is registered until it is discarded: once, or again if that discard failed. */
  ghost predicate Ledger(owned: Ownership, player: Player, phase: Phase, i: nat) {
    && (i in owned.cleanup ==> i in owned.synthesized)
    && ((player.Playing? || player.Discarding?) && player.index == i ==> i in owned.cleanup)
    && (player.Discarding? && player.index == i ==> owned.discards[i] > 0)
    && (owned.discards[i] > 0 ==> i in owned.synthesized)
    && (i in owned.synthesized ==> i in owned.cleanup || owned.discards[i] > 0)
    && (owned.discardFailed == Some(i) ==> player == PlayerDone && i in owned.cleanup)
    && (i in owned.synthesized ==>
          owned.discards[i] == (if Owed(owned, player, i) then 0 else 1)
                               + (if CleanedUp(phase) && i in owned.cleanup then 1 else 0))
  }

  /** A successful result that has not been played is still registered. */
  ghost predicate Unplayed(s: State, i: nat) {
    && (multiset(s.workers)[Holding(i, true)] > 0 ==> Owed(s.owned, s.playback.player, i))
    && (multiset(s.audio)[Audio(i, true)] > 0 ==> Owed(s.owned, s.playback.player, i))
    && (i in s.playback.pending && s.playback.pending[i] ==> Owed(s.owned, s.playback.player, i))
  }

  ghost predicate At(c: Config, s: State, i: nat) {
    Custody(c, s, i) && Outcome(c, s, i) && Ledger(s.owned, s.playback.player, s.phase, i) && Unplayed(s, i)
  }

  ghost predicate Core(c: Config, s: State)
    requires c.Valid()
  {
    var broken := Broken(s.flags);
    && Shape(c, s)
    && PlayerShape(c, s.playback, s.flags)
    && Text(c, s.speech, broken)
    && Sentinels(c, s.speech.producer, s.jobs, s.workers, broken)
    && Farewells(c, s.workers, s.audio, s.playback, broken)
    && Order(s.events, s.playback, broken)
    && forall i: nat :: At(c, s, i)
  }

  // ----- Queues and workers -----

  lemma DequeueCounts<T>(q: seq<T>)
    requires q != []
    ensures multiset(q) == multiset{q[0]} + multiset(q[1..])
  {
    assert q == [q[0]] + q[1..];
  }

  lemma {:induction false} GoneAfterUpdate(ws: seq<Worker>, w: nat, to: Worker)
    requires w < |ws|
    ensures Gone(ws[w := to]) == Gone(ws) - IsGone(ws[w]) + IsGone(to)
  {
    var last := |ws| - 1;
    if w == last {
      assert ws[w := to][..last] == ws[..last];
    } else {
      assert ws[w := to][..last] == ws[..last][w := to];
      GoneAfterUpdate(ws[..last], w, to);
    }
  }

  lemma {:induction false} GoneBounds(ws: seq<Worker>)
    ensures multiset(ws)[WorkerDone] <= Gone(ws) <= |ws|
    ensures multiset(ws)[WorkerDone] == |ws| <==> WorkersDone(ws)
    ensures Gone(ws) == |ws| ==> forall w :: 0 <= w < |ws| ==> IsGone(ws[w]) == 1
  {
    if ws != [] {
      var last := |ws| - 1;
      GoneBounds(ws[..last]);
      assert ws == ws[..last] + [ws[last]];
    }
  }

  // ----- The environment -----

  /** Steps that move no segment and only add `more` to the events keep the facts about every index. */
  lemma AtUnaffected(c: Config, s: State, t: State, more: seq<Event>)
    requires s.jobs == t.jobs && s.workers == t.workers && s.audio == t.audio && s.owned == t.owned
    requires Submitted(c, s.speech) == Submitted(c, t.speech) && (Broken(s.flags) ==> Broken(t.flags))
    requires s.playback.pending == t.playback.pending && s.playback.nextIndex == t.playback.nextIndex
    requires s.playback.player == t.playback.player
          || !(s.playback.player.Playing? || s.playback.player.Discarding?
               || t.playback.player.Playing? || t.playback.player.Discarding?)
    requires s.playback.player == PlayerDone ==> t.playback.player == PlayerDone
    requires CleanedUp(s.phase) == CleanedUp(t.phase)
    requires t.events == s.events + more
    requires forall e :: e in more ==> !e.PlaybackStarted? && !e.PlaybackSkipped?
    requires forall i: nat :: At(c, s, i)
    ensures forall i: nat :: At(c, t, i)
  {
    forall i: nat ensures At(c, t, i) {
      assert At(c, s, i);
    }
  }

  lemma FlagsKeep(c: Config, s: State, flags: Flags)
    requires c.Valid() && Core(c, s) && s.phase == Working
    requires || flags == s.flags.(token := true)
             || flags == s.flags.(cancelled := true, aborting := true)
             || (s.flags.failed && flags == s.flags.(aborting := true))
    ensures Core(c, s.(flags := flags))
  {
    assert s.events + [] == s.events;
    AtUnaffected(c, s, s.(flags := flags), []);
  }

  // ----- The producer -----

  lemma TextAfterDelta(c: Config, speech: Speech, broken: bool)
    requires c.Valid() && Text(c, speech, broken) && speech.producer == Streaming && speech.incoming != []
    ensures var (texts, rest) := c.settings.Feed(speech.buffer, speech.incoming[0]);
            Text(c, Speech(speech.incoming[1..], speech.fullText + speech.incoming[0], rest, speech.completed,
                           Queueing(texts, false)), broken)
  {
    assert speech.fullText + speech.incoming[0] + Concat(speech.incoming[1..]) == speech.fullText + Concat(speech.incoming);
  }

  lemma ReceiveDeltaKeeps(c: Config, s: State)
    requires c.Valid() && Core(c, s) && CanReceiveDelta(s)
    ensures Core(c, AfterReceiveDelta(c, s))
  {
    hide At, Text, Settings.Feed, Settings.ReplyTexts, Concat;
    var t := AfterReceiveDelta(c, s);
    TextAfterDelta(c, s.speech, Broken(s.flags));
    AnnounceIndices(s.events, AssistantDelta(s.speech.incoming[0]));
    AtUnaffected(c, s, t, [AssistantDelta(s.speech.incoming[0])]);
  }

  lemma EndStreamKeeps(c: Config, s: State)
    requires c.Valid() && Core(c, s) && CanEndStream(s)
    ensures Core(c, AfterEndStream(c, s))
  {
    var t := AfterEndStream(c, s);
    var texts := c.settings.Flush(s.speech.buffer);
    assert texts + [] == texts;
    assert Text(c, t.speech, Broken(s.flags));
    AtUnaffected(c, s, t, []);
  }

  lemma QueueSegmentAt(c: Config, s: State, i: nat)
    requires At(c, s, i) && Shape(c, s) && CanQueueSegment(s)
    ensures At(c, AfterQueueSegment(c, s), i)
  {
  }

  lemma TextAfterSegment(c: Config, speech: Speech, broken: bool)
    requires c.Valid() && Text(c, speech, broken) && speech.producer.Queueing? && speech.producer.batch != []
    ensures var Queueing(batch, closing) := speech.producer;
            Text(c, speech.(completed := speech.completed + [batch[0]], producer := Queueing(batch[1..], closing)), broken)
  {
    hide Concat, Settings.ReplyTexts;
    var Queueing(batch, closing) := speech.producer;
    MoveFirst(speech.completed, batch, if closing then [] else c.settings.ReplyTexts(speech.buffer, speech.incoming));
  }

  lemma MoveFirst<T>(done: seq<T>, batch: seq<T>, later: seq<T>)
    requires batch != []
    ensures done + [batch[0]] + (batch[1..] + later) == done + (batch + later)
  {
  }

  lemma SentinelsAfterJob(
    c: Config, p: Producer, p': Producer, jobs: seq<QueuedJob>, workers: seq<Worker>, broken: bool, index: nat)
    requires |workers| == c.Workers() && p.Queueing? && p'.Queueing? && Sentinels(c, p, jobs, workers, broken)
    ensures Sentinels(c, p', jobs, workers, broken) && Sentinels(c, p', jobs + [Job(index)], workers, broken)
  {
  }

  lemma QueueSegmentKeeps(c: Config, s: State)
    requires c.Valid() && Core(c, s) && CanQueueSegment(s)
    ensures Core(c, AfterQueueSegment(c, s))
  {
    hide At, Text, Sentinels;
    var t := AfterQueueSegment(c, s);
    var index := |s.speech.completed|;
    TextAfterSegment(c, s.speech, Broken(s.flags));
    SentinelsAfterJob(c, s.speech.producer, t.speech.producer, s.jobs, s.workers, Broken(s.flags), index);
    var segment := AssistantSegment(index, s.speech.producer.batch[0]);
    AnnounceIndices(s.events, segment);
    AnnounceIndices(s.events + [segment], TtsJob(index));
    forall i: nat ensures At(c, t, i) {
      QueueSegmentAt(c, s, i);
    }
  }

  lemma BatchDoneKeeps(c: Config, s: State)
    requires c.Valid() && Core(c, s) && CanBatchDone(s)
    ensures Core(c, AfterBatchDone(c, s))
  {
    var t := AfterBatchDone(c, s);
    assert [] + c.settings.ReplyTexts(s.speech.buffer, s.speech.incoming)
        == c.settings.ReplyTexts(s.speech.buffer, s.speech.incoming);
    assert s.speech.completed + [] == s.speech.completed;
    assert Text(c, t.speech, Broken(s.flags));
    AtUnaffected(c, s, t, []);
  }

  lemma ProducerQuitsKeeps(c: Config, s: State, error: bool)
    requires c.Valid() && Core(c, s) && CanProducerQuit(s, error)
    ensures Core(c, AfterProducerQuits(c, s, error))
  {
    var t := AfterProducerQuits(c, s, error);
    AtUnaffected(c, s, t, []);
  }

  lemma PutSentinelKeeps(c: Config, s: State)
    requires c.Valid() && Core(c, s) && CanPutSentinel(s)
    ensures Core(c, AfterPutSentinel(s))
  {
    var t := AfterPutSentinel(s);
    assert Sentinels(c, t.speech.producer, t.jobs, t.workers, Broken(s.flags));
    forall i: nat ensures At(c, t, i) {
      assert At(c, s, i);
    }
  }

  lemma ProducerExitsKeeps(c: Config, s: State)
    requires c.Valid() && Core(c, s) && CanProducerExit(s)
    ensures Core(c, AfterProducerExits(s))
  {
    var t := AfterProducerExits(s);
    AtUnaffected(c, s, t, []);
  }

  // ----- A worker -----

  lemma TakeJobAt(c: Config, s: State, w: nat, i: nat)
    requires At(c, s, i) && CanTakeJob(s, w)
    ensures At(c, AfterTakeJob(s, w), i)
  {
    DequeueCounts(s.jobs);
  }

  /** A worker that has not ended moves on without ending. */
  lemma FarewellsAfterMove(
    c: Config, workers: seq<Worker>, w: nat, to: Worker, audio: seq<QueuedAudio>, playback: Playback,
    broken: bool, broken': bool)
    requires w < |workers| && workers[w] != WorkerDone && to != WorkerDone && (broken ==> broken')
    requires Farewells(c, workers, audio, playback, broken)
    ensures Farewells(c, workers[w := to], audio, playback, broken')
  {
    assert workers[w := to][w] != WorkerDone;
  }

  lemma SentinelsAfterTake(c: Config, s: State, w: nat)
    requires Shape(c, s) && CanTakeJob(s, w)
    requires Sentinels(c, s.speech.producer, s.jobs, s.workers, Broken(s.flags))
    ensures var t := AfterTakeJob(s, w);
            Sentinels(c, t.speech.producer, t.jobs, t.workers, Broken(t.flags))
  {
    var t := AfterTakeJob(s, w);
    DequeueCounts(s.jobs);
    GoneAfterUpdate(s.workers, w, t.workers[w]);
    GoneBounds(t.workers);
  }

  lemma TakeJobKeeps(c: Config, s: State, w: nat)
    requires c.Valid() && Core(c, s) && CanTakeJob(s, w)
    ensures Core(c, AfterTakeJob(s, w))
  {
    hide At, Sentinels, Farewells;
    var t := AfterTakeJob(s, w);
    SentinelsAfterTake(c, s, w);
    FarewellsAfterMove(c, s.workers, w, t.workers[w], s.audio, s.playback, Broken(s.flags), Broken(t.flags));
    forall i: nat ensures At(c, t, i) {
      TakeJobAt(c, s, w, i);
    }
  }

  lemma SynthesizedAt(c: Config, s: State, w: nat, success: bool, i: nat)
    requires At(c, s, i) && PlayerShape(c, s.playback, s.flags) && CanSynthesize(s, w)
    ensures At(c, AfterSynthesized(s, w, success), i)
  {
    assert multiset(s.workers)[s.workers[w]] > 0;
  }

  lemma SynthesizedKeeps(c: Config, s: State, w: nat, success: bool)
    requires c.Valid() && Core(c, s) && CanSynthesize(s, w)
    ensures Core(c, AfterSynthesized(s, w, success))
  {
    hide At, Farewells;
    var t := AfterSynthesized(s, w, success);
    GoneAfterUpdate(s.workers, w, t.workers[w]);
    FarewellsAfterMove(c, s.workers, w, t.workers[w], s.audio, s.playback, Broken(s.flags), Broken(t.flags));
    forall i: nat ensures At(c, t, i) {
      SynthesizedAt(c, s, w, success, i);
    }
  }

  lemma PublishAudioAt(c: Config, s: State, w: nat, i: nat)
    requires At(c, s, i) && CanPublishAudio(s, w)
    ensures At(c, AfterPublishAudio(s, w), i)
  {
  }

  lemma PublishAudioKeeps(c: Config, s: State, w: nat)
    requires c.Valid() && Core(c, s) && CanPublishAudio(s, w)
    ensures Core(c, AfterPublishAudio(s, w))
  {
    hide At;
    var t := AfterPublishAudio(s, w);
    GoneAfterUpdate(s.workers, w, Idle);
    assert t.workers[w] != WorkerDone;
    assert Farewells(c, t.workers, t.audio, t.playback, Broken(s.flags));
    forall i: nat ensures At(c, t, i) {
      PublishAudioAt(c, s, w, i);
    }
  }

  lemma WorkerQuitsAt(c: Config, s: State, w: nat, error: bool, i: nat)
    requires At(c, s, i) && CanWorkerQuit(s, w, error)
    ensures At(c, AfterWorkerQuits(s, w, error), i)
  {
  }

  lemma WorkerQuitsKeeps(c: Config, s: State, w: nat, error: bool)
    requires c.Valid() && Core(c, s) && CanWorkerQuit(s, w, error)
    ensures Core(c, AfterWorkerQuits(s, w, error))
  {
    hide At, Farewells, Concat, Settings.ReplyTexts, PlaybackIndices, UpTo;
    var t := AfterWorkerQuits(s, w, error);
    GoneAfterUpdate(s.workers, w, Leaving);
    FarewellsAfterMove(c, s.workers, w, Leaving, s.audio, s.playback, Broken(s.flags), Broken(t.flags));
    forall i: nat ensures At(c, t, i) {
      WorkerQuitsAt(c, s, w, error, i);
    }
  }

  lemma WorkerExitsAt(c: Config, s: State, w: nat, i: nat)
    requires At(c, s, i) && CanWorkerExit(s, w)
    ensures At(c, AfterWorkerExits(s, w), i)
  {
  }

  lemma WorkerExitsKeeps(c: Config, s: State, w: nat)
    requires c.Valid() && Core(c, s) && CanWorkerExit(s, w)
    ensures Core(c, AfterWorkerExits(s, w))
  {
    hide At, Concat, Settings.ReplyTexts, PlaybackIndices, UpTo;
    var t := AfterWorkerExits(s, w);
    GoneAfterUpdate(s.workers, w, WorkerDone);
    assert Farewells(c, t.workers, t.audio, t.playback, Broken(s.flags));
    forall i: nat ensures At(c, t, i) {
      WorkerExitsAt(c, s, w, i);
    }
  }

  // ----- The player -----

  lemma TakeAudioAt(c: Config, s: State, i: nat)
    requires At(c, s, i) && CanTakeAudio(s)
    ensures At(c, AfterTakeAudio(s), i)
  {
    DequeueCounts(s.audio);
  }

  lemma FarewellsAfterTake(c: Config, s: State)
    requires Farewells(c, s.workers, s.audio, s.playback, Broken(s.flags)) && CanTakeAudio(s)
    ensures var t := AfterTakeAudio(s);
            Farewells(c, t.workers, t.audio, t.playback, Broken(t.flags))
  {
    DequeueCounts(s.audio);
  }

  lemma OrderAfterTake(s: State)
    requires Order(s.events, s.playback, Broken(s.flags)) && CanTakeAudio(s)
    ensures var t := AfterTakeAudio(s);
            Order(t.events, t.playback, Broken(t.flags))
  {
  }

  lemma TakeAudioKeeps(c: Config, s: State)
    requires c.Valid() && Core(c, s) && CanTakeAudio(s)
    ensures Core(c, AfterTakeAudio(s))
  {
    hide At, Farewells, Sentinels, Text, Order;
    var t := AfterTakeAudio(s);
    FarewellsAfterTake(c, s);
    OrderAfterTake(s);
    forall i: nat ensures At(c, t, i) {
      TakeAudioAt(c, s, i);
    }
  }

  lemma AnnounceIndices(events: seq<Event>, e: Event)
    ensures PlaybackIndices(events + [e])
         == PlaybackIndices(events) + if e.PlaybackStarted? || e.PlaybackSkipped? then [e.index] else []
  {
    assert (events + [e])[..|events|] == events;
  }

  lemma SkipNextAt(c: Config, s: State, i: nat)
    requires At(c, s, i) && CanSkipNext(s)
    ensures At(c, AfterSkipNext(s), i)
  {
  }

  lemma SkipNextKeeps(c: Config, s: State)
    requires c.Valid() && Core(c, s) && CanSkipNext(s)
    ensures Core(c, AfterSkipNext(s))
  {
    hide At, Text, Sentinels;
    var t := AfterSkipNext(s);
    AnnounceIndices(s.events, PlaybackSkipped(s.playback.nextIndex));
    assert UpTo(s.playback.nextIndex) + [s.playback.nextIndex] == UpTo(s.playback.nextIndex + 1);
    forall i: nat ensures At(c, t, i) {
      SkipNextAt(c, s, i);
    }
  }

  lemma StartNextAt(c: Config, s: State, i: nat)
    requires At(c, s, i) && CanStartNext(s)
    ensures At(c, AfterStartNext(s), i)
  {
  }

  lemma StartNextKeeps(c: Config, s: State)
    requires c.Valid() && Core(c, s) && CanStartNext(s)
    ensures Core(c, AfterStartNext(s))
  {
    hide At, Text, Sentinels;
    var t := AfterStartNext(s);
    AnnounceIndices(s.events, PlaybackStarted(s.playback.nextIndex));
    assert UpTo(s.playback.nextIndex) + [s.playback.nextIndex] == UpTo(s.playback.nextIndex + 1);
    forall i: nat ensures At(c, t, i) {
      StartNextAt(c, s, i);
    }
  }

  lemma DrainDoneKeeps(c: Config, s: State)
    requires c.Valid() && Core(c, s) && CanDrainDone(s)
    ensures Core(c, AfterDrainDone(c, s))
  {
    var t := AfterDrainDone(c, s);
    GoneBounds(s.workers);
    AtUnaffected(c, s, t, []);
  }

  lemma PlayEndsAt(c: Config, s: State, success: bool, error: bool, i: nat)
    requires At(c, s, i) && PlayerShape(c, s.playback, s.flags) && CanPlayEnd(s, success, error)
    ensures At(c, AfterPlayEnds(s, success, error), i)
  {
  }

  lemma PlayEndsKeeps(c: Config, s: State, success: bool, error: bool)
    requires c.Valid() && Core(c, s) && CanPlayEnd(s, success, error)
    ensures Core(c, AfterPlayEnds(s, success, error))
  {
    var t := AfterPlayEnds(s, success, error);
    AnnounceIndices(s.events, PlaybackFinished(s.playback.player.index));
    forall i: nat ensures At(c, t, i) {
      PlayEndsAt(c, s, success, error, i);
    }
  }

  lemma DiscardEndsAt(c: Config, s: State, i: nat)
    requires At(c, s, i) && PlayerShape(c, s.playback, s.flags) && CanDiscardEnd(s)
    ensures At(c, AfterDiscardEnds(s), i)
  {
  }

  lemma DiscardEndsKeeps(c: Config, s: State)
    requires c.Valid() && Core(c, s) && CanDiscardEnd(s)
    ensures Core(c, AfterDiscardEnds(s))
  {
    var t := AfterDiscardEnds(s);
    forall i: nat ensures At(c, t, i) {
      DiscardEndsAt(c, s, i);
    }
  }

  lemma DiscardRaisesAt(c: Config, s: State, error: bool, i: nat)
    requires At(c, s, i) && PlayerShape(c, s.playback, s.flags) && CanDiscardRaise(s, error)
    ensures At(c, AfterDiscardRaises(s, error), i)
  {
  }

  lemma DiscardRaisesKeeps(c: Config, s: State, error: bool)
    requires c.Valid() && Core(c, s) && CanDiscardRaise(s, error)
    ensures Core(c, AfterDiscardRaises(s, error))
  {
    var t := AfterDiscardRaises(s, error);
    forall i: nat ensures At(c, t, i) {
      DiscardRaisesAt(c, s, error, i);
    }
  }

  lemma PlayerQuitsKeeps(c: Config, s: State, error: bool)
    requires c.Valid() && Core(c, s) && CanPlayerQuit(s, error)
    ensures Core(c, AfterPlayerQuits(s, error))
  {
    var t := AfterPlayerQuits(s, error);
    AtUnaffected(c, s, t, []);
  }

  // ----- The end of the request -----

  lemma GroupEndsKeeps(c: Config, s: State)
    requires c.Valid() && Core(c, s) && CanGroupEnd(s)
    ensures Core(c, AfterGroupEnds(c, s))
  {
    var t := AfterGroupEnds(c, s);
    AtUnaffected(c, s, t, []);
  }

  lemma PlayerStoppedKeeps(c: Config, s: State, success: bool)
    requires c.Valid() && Core(c, s) && s.phase.StoppingPlayer?
    ensures Core(c, AfterPlayerStopped(s, success))
  {
    var t := AfterPlayerStopped(s, success);
    AtUnaffected(c, s, t, []);
  }

  lemma DiscardRestAt(c: Config, s: State, i: nat)
    requires At(c, s, i) && Shape(c, s) && s.phase.Cleaning?
    ensures At(c, AfterDiscardRest(s), i)
  {
  }

  lemma DiscardRestKeeps(c: Config, s: State)
    requires c.Valid() && Core(c, s) && s.phase.Cleaning?
    ensures Core(c, AfterDiscardRest(s))
  {
    var t := AfterDiscardRest(s);
    forall i: nat ensures At(c, t, i) {
      DiscardRestAt(c, s, i);
    }
  }

  // ----- Every run -----

  lemma ProducerStepKeeps(c: Config, s: State, a: Action)
    requires c.Valid() && Core(c, s) && Enabled(c, s, a)
    requires a.ReceiveDelta? || a.EndStream? || a.QueueSegment? || a.BatchDone? || a.ProducerQuits?
          || a.PutSentinel? || a.ProducerExits?
    ensures Core(c, Do(c, s, a))
  {
    hide Core, At;
    match a
    case ReceiveDelta => ReceiveDeltaKeeps(c, s);
    case EndStream => EndStreamKeeps(c, s);
    case QueueSegment => QueueSegmentKeeps(c, s);
    case BatchDone => BatchDoneKeeps(c, s);
    case ProducerQuits(error) => ProducerQuitsKeeps(c, s, error);
    case PutSentinel => PutSentinelKeeps(c, s);
    case ProducerExits => ProducerExitsKeeps(c, s);
  }

  lemma WorkerStepKeeps(c: Config, s: State, a: Action)
    requires c.Valid() && Core(c, s) && Enabled(c, s, a)
    requires a.TakeJob? || a.Synthesized? || a.PublishAudio? || a.WorkerQuits? || a.WorkerExits?
    ensures Core(c, Do(c, s, a))
  {
    hide Core, At;
    match a
    case TakeJob(w) => TakeJobKeeps(c, s, w);
    case Synthesized(w, success) => SynthesizedKeeps(c, s, w, success);
    case PublishAudio(w) => PublishAudioKeeps(c, s, w);
    case WorkerQuits(w, error) => WorkerQuitsKeeps(c, s, w, error);
    case WorkerExits(w) => WorkerExitsKeeps(c, s, w);
  }

  lemma PlayerStepKeeps(c: Config, s: State, a: Action)
    requires c.Valid() && Core(c, s) && Enabled(c, s, a)
    requires a.TakeAudio? || a.SkipNext? || a.StartNext? || a.DrainDone? || a.PlayEnds? || a.DiscardEnds?
          || a.DiscardRaises? || a.PlayerQuits?
    ensures Core(c, Do(c, s, a))
  {
    hide Core, At;
    match a
    case TakeAudio => TakeAudioKeeps(c, s);
    case SkipNext => SkipNextKeeps(c, s);
    case StartNext => StartNextKeeps(c, s);
    case DrainDone => DrainDoneKeeps(c, s);
    case PlayEnds(success, error) => PlayEndsKeeps(c, s, success, error);
    case DiscardEnds => DiscardEndsKeeps(c, s);
    case DiscardRaises(error) => DiscardRaisesKeeps(c, s, error);
    case PlayerQuits(error) => PlayerQuitsKeeps(c, s, error);
  }

  lemma StepKeepsCore(c: Config, s: State, a: Action)
    requires c.Valid() && Core(c, s) && Enabled(c, s, a)
    ensures Core(c, Do(c, s, a))
  {
    hide Core, At;
    match a
    case SetToken => FlagsKeep(c, s, s.flags.(token := true));
    case CancelRun => FlagsKeep(c, s, s.flags.(cancelled := true, aborting := true));
    case AbortGroup => FlagsKeep(c, s, s.flags.(aborting := true));
    case GroupEnds => GroupEndsKeeps(c, s);
    case PlayerStopped(success) => PlayerStoppedKeeps(c, s, success);
    case DiscardRest => DiscardRestKeeps(c, s);
    case TakeJob(_) => WorkerStepKeeps(c, s, a);
    case Synthesized(_, _) => WorkerStepKeeps(c, s, a);
    case PublishAudio(_) => WorkerStepKeeps(c, s, a);
    case WorkerQuits(_, _) => WorkerStepKeeps(c, s, a);
    case WorkerExits(_) => WorkerStepKeeps(c, s, a);
    case TakeAudio => PlayerStepKeeps(c, s, a);
    case SkipNext => PlayerStepKeeps(c, s, a);
    case StartNext => PlayerStepKeeps(c, s, a);
    case DrainDone => PlayerStepKeeps(c, s, a);
    case PlayEnds(_, _) => PlayerStepKeeps(c, s, a);
    case DiscardEnds => PlayerStepKeeps(c, s, a);
    case DiscardRaises(_) => PlayerStepKeeps(c, s, a);
    case PlayerQuits(_) => PlayerStepKeeps(c, s, a);
    case _ => ProducerStepKeeps(c, s, a);
  }

  /** The invariant of a run: of its variables, and of what it reports. */
  ghost predicate Inv(c: Config, s: State)
    requires c.Valid()
  {
    Core(c, s) && Reported(c, s)
  }

  /** Every action, of any task or of the environment, keeps the invariant. */
  lemma StepKeeps(c: Config, s: State, a: Action)
    requires c.Valid() && Inv(c, s) && Enabled(c, s, a)
    ensures Inv(c, Do(c, s, a))
  {
    StepKeepsCore(c, s, a);
    hide Reported, At, Do, Enabled;
    ReportsKeep(c, s, a);
  }
}
