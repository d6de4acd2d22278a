/** One run of `_run_request` in app/pipelines/dialogue.py as a step system.

    One producer, `workers` TTS workers and one player share two FIFO queues.  An action is the code
    between two points where a coroutine can be suspended; the injected `emit`, the language model,
    the synthesizer and the player are all such points, so every interleaving of them is a run.
    A synthesis is named by the index of its job: each job is synthesized at most once. */
module DialogueRun {
  import opened Options
  import opened Segmentation

  datatype Config = Config(
    settings: Settings,
    workerCount: nat,       // tts_worker_count
    audioEnabled: bool,
    reply: seq<string>)     // what the language model streams if it is not interrupted
  {
    ghost predicate Valid() {
      settings.Valid() && workerCount >= 1
    }

    /** How many workers are started. */
    function Workers(): nat {
      if audioEnabled then workerCount else 0
    }
  }

  datatype QueuedJob = Job(index: nat) | NoMoreJobs
  datatype QueuedAudio = Audio(index: nat, success: bool) | WorkerGone

  datatype Producer = Streaming | Queueing(batch: seq<string>, closing: bool) | Stopping(sentinels: nat) | ProducerDone
  datatype Worker = Idle | Synthesizing(index: nat) | Holding(index: nat, success: bool) | Leaving | WorkerDone
  datatype Player = Waiting | Draining | Playing(index: nat) | Discarding(index: nat, finished: bool) | PlayerDone
  datatype Phase = Working | StoppingPlayer(ok: bool) | Cleaning(ok: bool) | Ended(ok: bool, playerStopped: bool)

  datatype Event =
    | AssistantDelta(text: string) | AssistantSegment(index: nat, text: string) | TtsJob(index: nat)
    | AudioReady(index: nat, success: bool)
    | PlaybackStarted(index: nat) | PlaybackSkipped(index: nat) | PlaybackFinished(index: nat)

  /** The producer's locals: the stream still to come, the segmenter's buffer, and what was said. */
  datatype Speech = Speech(
    incoming: seq<string>, fullText: string, buffer: string, completed: seq<string>, producer: Producer)

  /** The player's locals. */
  datatype Playback = Playback(pending: map<nat, bool>, nextIndex: nat, finishedWorkers: nat, player: Player)

  /** `cleanup`, and the history the ownership claims speak of. */
  datatype Ownership = Ownership(
    cleanup: set<nat>,
    synthesized: set<nat>,       // indices whose synthesis succeeded so far
    discards: multiset<nat>,     // calls of tts.discard so far
    discardFailed: Option<nat>)  // the result whose discard by the player raised or was interrupted

  datatype Flags = Flags(
    token: bool,                 // the turn's cancellation token is set
    failed: bool,                // some task ended with an exception other than cancellation
    cancelled: bool,             // the coroutine running the request was cancelled
    aborting: bool)              // the group has cancelled its tasks

  datatype State = State(
    speech: Speech, jobs: seq<QueuedJob>, workers: seq<Worker>, audio: seq<QueuedAudio>,
    playback: Playback, owned: Ownership, flags: Flags, phase: Phase, events: seq<Event>)

  datatype Action =
    | SetToken | CancelRun | AbortGroup
    | ReceiveDelta | EndStream | QueueSegment | BatchDone | ProducerQuits(error: bool) | PutSentinel | ProducerExits
    | TakeJob(worker: nat) | Synthesized(worker: nat, success: bool) | PublishAudio(worker: nat)
    | WorkerQuits(worker: nat, error: bool) | WorkerExits(worker: nat)
    | TakeAudio | SkipNext | StartNext | DrainDone | PlayEnds(success: bool, error: bool)
    | DiscardEnds | DiscardRaises(error: bool) | PlayerQuits(error: bool)
    | GroupEnds | PlayerStopped(success: bool) | DiscardRest

  function Initial(c: Config): State {
    State(Speech(c.reply, "", "", [], Streaming), [], seq(c.Workers(), _ => Idle), [],
          Playback(map[], 0, 0, if c.audioEnabled then Waiting else PlayerDone),
          Ownership({}, {}, multiset{}, None), Flags(false, false, false, false), Working, [])
  }

  /** May a task that waits, or checks the token, end here?  By an exception of its own, by the token
      check, or because the group cancels it. */
  predicate MayQuit(flags: Flags, error: bool) {
    error || flags.token || flags.aborting
  }

  function Fail(flags: Flags, error: bool): Flags {
    flags.(failed := flags.failed || error)
  }

  // ----- The producer: `stream_to_tts` and `_queue_segment` -----

  predicate CanReceiveDelta(s: State) {
    s.phase == Working && s.speech.producer == Streaming && s.speech.incoming != [] && !s.flags.token
  }

  function AfterReceiveDelta(c: Config, s: State): State
    requires c.Valid() && CanReceiveDelta(s)
  {
    var delta := s.speech.incoming[0];
    var (texts, rest) := c.settings.Feed(s.speech.buffer, delta);
    s.(speech := Speech(s.speech.incoming[1..], s.speech.fullText + delta, rest, s.speech.completed, Queueing(texts, false)),
       events := s.events + [AssistantDelta(delta)])
  }

  predicate CanEndStream(s: State) {
    s.phase == Working && s.speech.producer == Streaming && s.speech.incoming == [] && !s.flags.token
  }

  function AfterEndStream(c: Config, s: State): State
    requires c.Valid()
  {
    s.(speech := s.speech.(buffer := "", producer := Queueing(c.settings.Flush(s.speech.buffer), true)))
  }

  predicate CanQueueSegment(s: State) {
    s.phase == Working && s.speech.producer.Queueing? && s.speech.producer.batch != [] && !s.flags.token
  }

  function AfterQueueSegment(c: Config, s: State): State
    requires CanQueueSegment(s)
  {
    var Queueing(batch, closing) := s.speech.producer;
    var index := |s.speech.completed|;
    var speech := s.speech.(completed := s.speech.completed + [batch[0]], producer := Queueing(batch[1..], closing));
    if c.audioEnabled then
      s.(speech := speech, jobs := s.jobs + [Job(index)],
         events := s.events + [AssistantSegment(index, batch[0])] + [TtsJob(index)])
    else
      s.(speech := speech, events := s.events + [AssistantSegment(index, batch[0])])
  }

  predicate CanBatchDone(s: State) {
    s.phase == Working && s.speech.producer.Queueing? && s.speech.producer.batch == []
  }

  function AfterBatchDone(c: Config, s: State): State
    requires CanBatchDone(s)
  {
    s.(speech := s.speech.(producer := if s.speech.producer.closing then Stopping(c.Workers()) else Streaming))
  }

  predicate CanProducerQuit(s: State, error: bool) {
    s.phase == Working && (s.speech.producer.Streaming? || s.speech.producer.Queueing?) && MayQuit(s.flags, error)
  }

  function AfterProducerQuits(c: Config, s: State, error: bool): State {
    s.(speech := s.speech.(producer := Stopping(c.Workers())), flags := Fail(s.flags, error))
  }

  predicate CanPutSentinel(s: State) {
    s.phase == Working && s.speech.producer.Stopping? && s.speech.producer.sentinels > 0
  }

  function AfterPutSentinel(s: State): State
    requires CanPutSentinel(s)
  {
    s.(speech := s.speech.(producer := Stopping(s.speech.producer.sentinels - 1)), jobs := s.jobs + [NoMoreJobs])
  }

  predicate CanProducerExit(s: State) {
    s.phase == Working && s.speech.producer == Stopping(0)
  }

  function AfterProducerExits(s: State): State {
    s.(speech := s.speech.(producer := ProducerDone))
  }

  // ----- A worker: `tts_worker` -----

  predicate CanTakeJob(s: State, w: nat) {
    s.phase == Working && w < |s.workers| && s.workers[w] == Idle && s.jobs != []
  }

  /** What a worker that takes `job` becomes: it ends on a sentinel, and on a cancelled token. */
  function WorkerTaking(s: State, job: QueuedJob): Worker {
    if job.NoMoreJobs? || s.flags.token then Leaving else Synthesizing(job.index)
  }

  function AfterTakeJob(s: State, w: nat): State
    requires CanTakeJob(s, w)
  {
    s.(jobs := s.jobs[1..], workers := s.workers[w := WorkerTaking(s, s.jobs[0])])
  }

  predicate CanSynthesize(s: State, w: nat) {
    s.phase == Working && w < |s.workers| && s.workers[w].Synthesizing?
  }

  function AfterSynthesized(s: State, w: nat, success: bool): State
    requires CanSynthesize(s, w)
  {
    var index := s.workers[w].index;
    s.(workers := s.workers[w := Holding(index, success)],
       owned := if success then
                  s.owned.(cleanup := s.owned.cleanup + {index}, synthesized := s.owned.synthesized + {index})
                else s.owned)
  }

  predicate CanPublishAudio(s: State, w: nat) {
    s.phase == Working && w < |s.workers| && s.workers[w].Holding? && !s.flags.token
  }

  function AfterPublishAudio(s: State, w: nat): State
    requires CanPublishAudio(s, w)
  {
    var Holding(index, success) := s.workers[w];
    s.(workers := s.workers[w := Idle], audio := s.audio + [Audio(index, success)],
       events := s.events + [AudioReady(index, success)])
  }

  predicate CanWorkerQuit(s: State, w: nat, error: bool) {
    && s.phase == Working && w < |s.workers| && MayQuit(s.flags, error)
    && (s.workers[w].Synthesizing? || s.workers[w].Holding? || (s.workers[w] == Idle && s.flags.aborting))
  }

  function AfterWorkerQuits(s: State, w: nat, error: bool): State
    requires w < |s.workers|
  {
    s.(workers := s.workers[w := Leaving], flags := Fail(s.flags, error))
  }

  predicate CanWorkerExit(s: State, w: nat) {
    s.phase == Working && w < |s.workers| && s.workers[w] == Leaving
  }

  function AfterWorkerExits(s: State, w: nat): State
    requires w < |s.workers|
  {
    s.(workers := s.workers[w := WorkerDone], audio := s.audio + [WorkerGone])
  }

  // ----- The player: `ordered_playback` -----

  predicate CanTakeAudio(s: State) {
    s.phase == Working && s.playback.player == Waiting && s.audio != []
  }

  function AfterTakeAudio(s: State): State
    requires CanTakeAudio(s)
  {
    var next := s.playback.(player := Draining);
    s.(audio := s.audio[1..],
       playback := match s.audio[0]
                   case WorkerGone => next.(finishedWorkers := s.playback.finishedWorkers + 1)
                   case Audio(index, success) => next.(pending := s.playback.pending[index := success]))
  }

  predicate NextIsPending(s: State) {
    s.phase == Working && s.playback.player == Draining && s.playback.nextIndex in s.playback.pending
  }

  predicate CanSkipNext(s: State) {
    NextIsPending(s) && !s.playback.pending[s.playback.nextIndex] && !s.flags.token
  }

  function AfterSkipNext(s: State): State {
    var next := s.playback.nextIndex;
    s.(playback := s.playback.(pending := s.playback.pending - {next}, nextIndex := next + 1),
       events := s.events + [PlaybackSkipped(next)])
  }

  predicate CanStartNext(s: State) {
    NextIsPending(s) && s.playback.pending[s.playback.nextIndex] && !s.flags.token
  }

  function AfterStartNext(s: State): State {
    var next := s.playback.nextIndex;
    s.(playback := s.playback.(pending := s.playback.pending - {next}, player := Playing(next)),
       events := s.events + [PlaybackStarted(next)])
  }

  predicate CanDrainDone(s: State) {
    s.phase == Working && s.playback.player == Draining && s.playback.nextIndex !in s.playback.pending
  }

  function AfterDrainDone(c: Config, s: State): State {
    s.(playback := s.playback.(player := if s.playback.finishedWorkers < c.Workers() then Waiting else PlayerDone))
  }

  predicate CanPlayEnd(s: State, success: bool, error: bool) {
    && s.phase == Working && s.playback.player.Playing?
    && if success then !s.flags.token && !error else MayQuit(s.flags, error)
  }

  function AfterPlayEnds(s: State, success: bool, error: bool): State
    requires CanPlayEnd(s, success, error)
  {
    var index := s.playback.player.index;
    s.(playback := s.playback.(player := Discarding(index, success)),
       owned := s.owned.(discards := s.owned.discards + multiset{index}),
       flags := Fail(s.flags, error),
       events := if success then s.events + [PlaybackFinished(index)] else s.events)
  }

  predicate CanDiscardEnd(s: State) {
    s.phase == Working && s.playback.player.Discarding?
  }

  function AfterDiscardEnds(s: State): State
    requires CanDiscardEnd(s)
  {
    var Discarding(index, finished) := s.playback.player;
    s.(playback := if finished then s.playback.(nextIndex := s.playback.nextIndex + 1, player := Draining)
                   else s.playback.(player := PlayerDone),
       owned := s.owned.(cleanup := s.owned.cleanup - {index}))
  }

  predicate CanDiscardRaise(s: State, error: bool) {
    s.phase == Working && s.playback.player.Discarding? && MayQuit(s.flags, error)
  }

  function AfterDiscardRaises(s: State, error: bool): State
    requires CanDiscardRaise(s, error)
  {
    s.(playback := s.playback.(player := PlayerDone),
       owned := s.owned.(discardFailed := Some(s.playback.player.index)), flags := Fail(s.flags, error))
  }

  predicate CanPlayerQuit(s: State, error: bool) {
    && MayQuit(s.flags, error)
    && (NextIsPending(s) || (s.phase == Working && s.playback.player == Waiting && s.flags.aborting))
  }

  function AfterPlayerQuits(s: State, error: bool): State {
    s.(playback := s.playback.(player := PlayerDone), flags := Fail(s.flags, error))
  }

  // ----- The end of the request -----

  predicate WorkersDone(workers: seq<Worker>) {
    forall w :: 0 <= w < |workers| ==> workers[w] == WorkerDone
  }

  predicate CanGroupEnd(s: State) {
    && s.phase == Working && s.speech.producer == ProducerDone && s.playback.player == PlayerDone
    && WorkersDone(s.workers)
  }

  function AfterGroupEnds(c: Config, s: State): State {
    var ok := !s.flags.failed && !s.flags.cancelled && !s.flags.token;
    s.(phase := if c.audioEnabled then StoppingPlayer(ok) else Cleaning(ok))
  }

  function AfterPlayerStopped(s: State, success: bool): State
    requires s.phase.StoppingPlayer?
  {
    s.(phase := if success then Cleaning(s.phase.ok) else Ended(false, false))
  }

  function AfterDiscardRest(s: State): State
    requires s.phase.Cleaning?
  {
    s.(phase := Ended(s.phase.ok, true), owned := s.owned.(discards := s.owned.discards + multiset(s.owned.cleanup)))
  }

  // ----- All actions -----

  predicate Enabled(c: Config, s: State, a: Action) {
    match a
    case SetToken => s.phase == Working && !s.flags.token
    case CancelRun => s.phase == Working && !s.flags.cancelled
    case AbortGroup => s.phase == Working && s.flags.failed && !s.flags.aborting
    case ReceiveDelta => CanReceiveDelta(s)
    case EndStream => CanEndStream(s)
    case QueueSegment => CanQueueSegment(s)
    case BatchDone => CanBatchDone(s)
    case ProducerQuits(error) => CanProducerQuit(s, error)
    case PutSentinel => CanPutSentinel(s)
    case ProducerExits => CanProducerExit(s)
    case TakeJob(w) => CanTakeJob(s, w)
    case Synthesized(w, _) => CanSynthesize(s, w)
    case PublishAudio(w) => CanPublishAudio(s, w)
    case WorkerQuits(w, error) => CanWorkerQuit(s, w, error)
    case WorkerExits(w) => CanWorkerExit(s, w)
    case TakeAudio => CanTakeAudio(s)
    case SkipNext => CanSkipNext(s)
    case StartNext => CanStartNext(s)
    case DrainDone => CanDrainDone(s)
    case PlayEnds(success, error) => CanPlayEnd(s, success, error)
    case DiscardEnds => CanDiscardEnd(s)
    case DiscardRaises(error) => CanDiscardRaise(s, error)
    case PlayerQuits(error) => CanPlayerQuit(s, error)
    case GroupEnds => CanGroupEnd(s)
    case PlayerStopped(_) => s.phase.StoppingPlayer?
    case DiscardRest => s.phase.Cleaning?
  }

  function Do(c: Config, s: State, a: Action): State
    requires c.Valid() && Enabled(c, s, a)
  {
    match a
    case SetToken => s.(flags := s.flags.(token := true))
    case CancelRun => s.(flags := s.flags.(cancelled := true, aborting := true))
    case AbortGroup => s.(flags := s.flags.(aborting := true))
    case ReceiveDelta => AfterReceiveDelta(c, s)
    case EndStream => AfterEndStream(c, s)
    case QueueSegment => AfterQueueSegment(c, s)
    case BatchDone => AfterBatchDone(c, s)
    case ProducerQuits(error) => AfterProducerQuits(c, s, error)
    case PutSentinel => AfterPutSentinel(s)
    case ProducerExits => AfterProducerExits(s)
    case TakeJob(w) => AfterTakeJob(s, w)
    case Synthesized(w, success) => AfterSynthesized(s, w, success)
    case PublishAudio(w) => AfterPublishAudio(s, w)
    case WorkerQuits(w, error) => AfterWorkerQuits(s, w, error)
    case WorkerExits(w) => AfterWorkerExits(s, w)
    case TakeAudio => AfterTakeAudio(s)
    case SkipNext => AfterSkipNext(s)
    case StartNext => AfterStartNext(s)
    case DrainDone => AfterDrainDone(c, s)
    case PlayEnds(success, error) => AfterPlayEnds(s, success, error)
    case DiscardEnds => AfterDiscardEnds(s)
    case DiscardRaises(error) => AfterDiscardRaises(s, error)
    case PlayerQuits(error) => AfterPlayerQuits(s, error)
    case GroupEnds => AfterGroupEnds(c, s)
    case PlayerStopped(success) => AfterPlayerStopped(s, success)
    case DiscardRest => AfterDiscardRest(s)
  }

  ghost predicate Step(c: Config, s: State, t: State)
    requires c.Valid()
  {
    exists a :: Enabled(c, s, a) && t == Do(c, s, a)
  }

  /** A run: from the initial state, each state by one action from the one before. */
  ghost predicate IsRun(c: Config, run: seq<State>)
    requires c.Valid()
  {
    && run != [] && run[0] == Initial(c)
    && forall i :: 0 <= i < |run| - 1 ==> Step(c, run[i], run[i + 1])
  }

  /** The indices of playback.started and playback.skipped, in the order they were emitted. */
  ghost function PlaybackIndices(events: seq<Event>): seq<nat> {
    if events == [] then []
    else
      var before, last := PlaybackIndices(events[..|events| - 1]), events[|events| - 1];
      if last.PlaybackStarted? || last.PlaybackSkipped? then before + [last.index] else before
  }

  /** The texts of assistant.delta, put together in the order they were emitted: what a listener has read. */
  ghost function Heard(events: seq<Event>): string {
    if events == [] then ""
    else
      var before, last := Heard(events[..|events| - 1]), events[|events| - 1];
      if last.AssistantDelta? then before + last.text else before
  }

  /** The texts and the indices of assistant.segment, and the indices of tts.job. */
  ghost function SegmentTexts(events: seq<Event>): seq<string> {
    if events == [] then []
    else
      var before, last := SegmentTexts(events[..|events| - 1]), events[|events| - 1];
      if last.AssistantSegment? then before + [last.text] else before
  }

  ghost function SegmentIndices(events: seq<Event>): seq<nat> {
    if events == [] then []
    else
      var before, last := SegmentIndices(events[..|events| - 1]), events[|events| - 1];
      if last.AssistantSegment? then before + [last.index] else before
  }

  ghost function JobIndices(events: seq<Event>): seq<nat> {
    if events == [] then []
    else
      var before, last := JobIndices(events[..|events| - 1]), events[|events| - 1];
      if last.TtsJob? then before + [last.index] else before
  }

  ghost function UpTo(n: nat): seq<nat> {
    seq(n, i => i)
  }
}
