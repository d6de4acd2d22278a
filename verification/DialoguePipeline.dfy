/** The coroutines of `_run_request` in app/pipelines/dialogue.py over the variables they share.

    Each method is the code a coroutine runs between two suspension points.  Its contract ties the new
    state of the shared variables to the step system of `DialogueRun`, about which the results are proved. */
module DialoguePipeline {
  import opened Options
  import opened Segmentation
  import opened Segmenter
  import opened DialogueRun
  import Proofs = DialogueRunProofs
  import Results = DialogueRunResults

  datatype Stage = AtStream | AtBatch(closing: bool) | AtSentinels(left: nat) | AtEnd

  function Texts(segments: seq<DialogueSegment>): (texts: seq<string>)
    ensures |texts| == |segments|
  {
    if segments == [] then [] else [segments[0].text] + Texts(segments[1..])
  }

  lemma {:induction false} TextsOfNumbered(turnId: string, first: nat, texts: seq<string>)
    ensures Texts(Numbered(turnId, first, texts)) == texts
  {
    if texts != [] {
      var last := |texts| - 1;
      TextsOfNumbered(turnId, first, texts[..last]);
      TextsConcat(Numbered(turnId, first, texts[..last]), [DialogueSegment(turnId, first + last, texts[last])]);
    }
  }

  lemma {:induction false} TextsConcat(a: seq<DialogueSegment>, b: seq<DialogueSegment>)
    ensures Texts(a + b) == Texts(a) + Texts(b)
  {
    if a == [] {
      assert a + b == b;
    } else {
      assert (a + b)[1..] == a[1..] + b;
      TextsConcat(a[1..], b);
    }
  }

  lemma {:induction false} NumberedConcat(turnId: string, a: seq<string>, b: seq<string>)
    ensures Numbered(turnId, 0, a + b) == Numbered(turnId, 0, a) + Numbered(turnId, |a|, b)
  {
    if b == [] {
      assert a + b == a;
    } else {
      var last := |b| - 1;
      assert (a + b)[..|a + b| - 1] == a + b[..last];
      NumberedConcat(turnId, a, b[..last]);
    }
  }

  /** A fresh batch continues the numbering of the segments handed out before it. */
  lemma BatchContinues(turnId: string, completed: seq<DialogueSegment>, spoken: seq<string>, texts: seq<string>)
    requires completed == Numbered(turnId, 0, spoken)
    ensures completed + Numbered(turnId, |spoken|, texts) == Numbered(turnId, 0, spoken + texts)
    ensures Texts(Numbered(turnId, |spoken|, texts)) == texts
  {
    NumberedConcat(turnId, spoken, texts);
    TextsOfNumbered(turnId, |spoken|, texts);
  }

  lemma MoveHead<T>(front: seq<T>, back: seq<T>)
    requires back != []
    ensures front + [back[0]] + back[1..] == front + back
    ensures (front + back)[|front|] == back[0]
  {
  }

  /** The first segment of the batch has the index of its place in the reply. */
  lemma BatchHead(turnId: string, completed: seq<DialogueSegment>, batch: seq<DialogueSegment>, spoken: seq<string>)
    requires batch != [] && completed + batch == Numbered(turnId, 0, spoken)
    ensures batch[0].index == |completed|
    ensures completed + [batch[0]] + batch[1..] == completed + batch
    ensures Texts(completed + [batch[0]]) == Texts(completed) + [batch[0].text]
    ensures Texts(batch)[0] == batch[0].text && Texts(batch)[1..] == Texts(batch[1..])
  {
    hide Numbered;
    NumberedIndex(turnId, 0, spoken, |completed|);
    MoveHead(completed, batch);
    TextsConcat(completed, [batch[0]]);
    assert Texts([batch[0]]) == [batch[0].text];
  }

  lemma NoSegments(turnId: string)
    ensures Texts([]) == [] && Numbered(turnId, 0, []) == []
  {
  }

  class RequestRun {
    const config: Config
    const segmenter: DialogueSegmenter
    ghost var incoming: seq<string>
    var fullText: string
    var completed: seq<DialogueSegment>
    var batch: seq<DialogueSegment>
    var stage: Stage
    var ttsQueue: seq<QueuedJob>
    var workers: seq<Worker>
    var audioQueue: seq<QueuedAudio>
    var pending: map<nat, bool>
    var nextIndex: nat
    var finishedWorkers: nat
    var player: Player
    var cleanup: set<nat>
    var flags: Flags
    var phase: Phase
    ghost var events: seq<Event>
    ghost var synthesized: set<nat>
    ghost var discards: multiset<nat>
    ghost var discardFailed: Option<nat>

    /** The segments handed out by the segmenter are the queued ones and then the current batch. */
    ghost predicate Aligned()
      reads `stage, `batch, `completed, segmenter
    {
      && config.Valid() && segmenter.settings == config.settings && segmenter.Valid()
      && (!stage.AtBatch? ==> batch == [])
      && (stage.AtStream? || stage.AtBatch? ==> completed + batch == Numbered(segmenter.turnId, 0, segmenter.spoken))
    }

    ghost function SpeechView(): Speech
      reads `incoming, `fullText, `completed, `stage, `batch, segmenter`buffer
    {
      var producer := match stage
        case AtStream => Streaming
        case AtBatch(closing) => Queueing(Texts(batch), closing)
        case AtSentinels(left) => Stopping(left)
        case AtEnd => ProducerDone;
      Speech(incoming, fullText, segmenter.buffer, Texts(completed), producer)
    }

    ghost function PlaybackView(): Playback
      reads `pending, `nextIndex, `finishedWorkers, `player
    {
      Playback(pending, nextIndex, finishedWorkers, player)
    }

    ghost function OwnershipView(): Ownership
      reads `cleanup, `synthesized, `discards, `discardFailed
    {
      Ownership(cleanup, synthesized, discards, discardFailed)
    }

    ghost function View(): State
      reads this, segmenter
    {
      State(SpeechView(), ttsQueue, workers, audioQueue, PlaybackView(), OwnershipView(), flags, phase, events)
    }

    /** The variables satisfy the invariant of the pipeline's runs. */
    ghost predicate Valid()
      reads this, segmenter
    {
      config.Valid() && Aligned() && Proofs.Inv(config, View())
    }

    constructor (config: Config, turnId: string)
      requires config.Valid()
      ensures Valid() && fresh(segmenter) && this.config == config && View() == Initial(config)
    {
      this.config := config;
      segmenter := new DialogueSegmenter.Init(turnId, config.settings);
      incoming, fullText, completed, batch, stage := config.reply, "", [], [], AtStream;
      ttsQueue, audioQueue, workers := [], [], seq(config.Workers(), _ => Idle);
      pending, nextIndex, finishedWorkers := map[], 0, 0;
      player := if config.audioEnabled then Waiting else PlayerDone;
      cleanup, flags, phase := {}, Flags(false, false, false, false), Working;
      events, synthesized, discards, discardFailed := [], {}, multiset{}, None;
      new;
      hide Proofs.Inv, DialogueSegmenter.Valid, Settings.Valid, Numbered, Texts;
      NoSegments(turnId);
      Results.InitialInv(config);
    }

    // ----- stream_to_tts -----

    method ReceiveDelta(delta: string)
      requires Valid() && CanReceiveDelta(View()) && delta == incoming[0]
      modifies `incoming, `fullText, `batch, `stage, `events, segmenter
      ensures Valid() && View() == AfterReceiveDelta(config, old(View()))
      ensures events == old(events) + [AssistantDelta(delta)]
      ensures Heard(events) == fullText == old(fullText) + delta
    {
      hide Proofs.Inv, DialogueSegmenter.Valid, Settings.Feed, Settings.GoodPieces, Settings.Covers, Numbered, Texts;
      hide PlaybackView, OwnershipView;
      Results.DeltaIsHeard(config, View());
      fullText := fullText + delta;
      events := events + [AssistantDelta(delta)];
      incoming := incoming[1..];
      FeedSegmenter(delta);
    }

    method FeedSegmenter(delta: string)
      requires Aligned() && stage.AtStream?
      modifies `batch, `stage, segmenter
      ensures Aligned() && stage == AtBatch(false)
      ensures (Texts(batch), segmenter.buffer) == config.settings.Feed(old(segmenter.buffer), delta)
    {
      hide DialogueSegmenter.Valid, Settings.Feed, Settings.GoodPieces, Settings.Covers, Numbered, Texts;
      assert completed + [] == completed;
      BatchContinues(segmenter.turnId, completed, segmenter.spoken, config.settings.Feed(segmenter.buffer, delta).0);
      batch := segmenter.Feed(delta);
      stage := AtBatch(false);
    }

    method EndStream()
      requires Valid() && CanEndStream(View())
      modifies `batch, `stage, segmenter
      ensures Valid() && View() == AfterEndStream(config, old(View()))
    {
      hide PlaybackView, OwnershipView;
      hide Proofs.Inv, DialogueSegmenter.Valid, Settings.Flush, Settings.GoodPieces, Settings.Covers, Numbered, Texts;
      Proofs.StepKeeps(config, View(), Action.EndStream);
      assert completed + [] == completed;
      BatchContinues(segmenter.turnId, completed, segmenter.spoken, config.settings.Flush(segmenter.buffer));
      batch := segmenter.Flush();
      stage := AtBatch(true);
    }

    /** `_queue_segment`: the job carries the segment's own index, which is its position in the reply. */
    method QueueSegment()
      requires Valid() && CanQueueSegment(View())
      modifies `completed, `batch, `ttsQueue, `events
      ensures Valid() && View() == AfterQueueSegment(config, old(View()))
      ensures completed[|completed| - 1].index == |completed| - 1
      ensures config.audioEnabled ==> ttsQueue == old(ttsQueue) + [Job(completed[|completed| - 1].index)]
      ensures SegmentTexts(events) == Texts(completed) && SegmentIndices(events) == UpTo(|completed|)
      ensures JobIndices(events) == if config.audioEnabled then UpTo(|completed|) else []
    {
      hide PlaybackView, OwnershipView;
      hide Proofs.Inv, DialogueSegmenter.Valid, Numbered, Texts;
      Results.SegmentIsAnnounced(config, View());
      var segment := batch[0];
      BatchHead(segmenter.turnId, completed, batch, segmenter.spoken);
      completed := completed + [segment];
      batch := batch[1..];
      if config.audioEnabled {
        ttsQueue := ttsQueue + [Job(segment.index)];
        events := events + [AssistantSegment(segment.index, segment.text)] + [TtsJob(segment.index)];
      } else {
        events := events + [AssistantSegment(segment.index, segment.text)];
      }
    }

    method BatchDone()
      requires Valid() && CanBatchDone(View())
      modifies `stage
      ensures Valid() && View() == AfterBatchDone(config, old(View()))
    {
      hide PlaybackView, OwnershipView;
      hide Proofs.Inv, DialogueSegmenter.Valid;
      Proofs.StepKeeps(config, View(), Action.BatchDone);
      stage := if stage.closing then AtSentinels(config.Workers()) else AtStream;
    }

    /** The stream raised, or the token check or a cancellation ended it: on to the `finally`. */
    method ProducerQuits(error: bool)
      requires Valid() && CanProducerQuit(View(), error)
      modifies `batch, `stage, `flags
      ensures Valid() && View() == AfterProducerQuits(config, old(View()), error)
    {
      hide MayQuit, Fail, Texts, Numbered, Settings.Quiescent, Settings.Covers;
      hide PlaybackView, OwnershipView;
      hide Proofs.Inv, DialogueSegmenter.Valid;
      Proofs.StepKeeps(config, View(), Action.ProducerQuits(error));
      batch, stage := [], AtSentinels(config.Workers());
      flags := Fail(flags, error);
    }

    method PutSentinel()
      requires Valid() && CanPutSentinel(View())
      modifies `ttsQueue, `stage
      ensures Valid() && View() == AfterPutSentinel(old(View()))
    {
      hide PlaybackView, OwnershipView;
      hide Proofs.Inv, DialogueSegmenter.Valid;
      Proofs.StepKeeps(config, View(), Action.PutSentinel);
      ttsQueue := ttsQueue + [NoMoreJobs];
      stage := AtSentinels(stage.left - 1);
    }

    // ----- tts_worker -----

    method TakeJob(w: nat)
      requires Valid() && CanTakeJob(View(), w)
      modifies `ttsQueue, `workers
      ensures Valid() && View() == AfterTakeJob(old(View()), w)
    {
      hide PlaybackView, OwnershipView;
      hide Aligned, SpeechView, Proofs.Inv;
      Proofs.StepKeeps(config, View(), Action.TakeJob(w));
      var indexedJob := ttsQueue[0];
      ttsQueue := ttsQueue[1..];
      if indexedJob.NoMoreJobs? || flags.token {
        workers := workers[w := Leaving];
      } else {
        workers := workers[w := Synthesizing(indexedJob.index)];
      }
    }

    /** Synthesis returned, or timed out as a failure: a success is registered before anything is awaited. */
    method Synthesized(w: nat, success: bool)
      requires Valid() && CanSynthesize(View(), w)
      modifies `workers, `cleanup, `synthesized
      ensures Valid() && View() == AfterSynthesized(old(View()), w, success)
      ensures success ==> old(workers[w].index) in cleanup && discards[old(workers[w].index)] == 0
    {
      hide PlaybackView;
      hide Aligned, SpeechView, Proofs.Inv;
      Proofs.StepKeeps(config, View(), Action.Synthesized(w, success));
      var index := workers[w].index;
      if success {
        cleanup := cleanup + {index};
        synthesized := synthesized + {index};
      }
      workers := workers[w := Holding(index, success)];
      if success {
        Results.HeldOf(config, View(), w, index);
      }
    }

    method PublishAudio(w: nat)
      requires Valid() && CanPublishAudio(View(), w)
      modifies `workers, `audioQueue, `events
      ensures Valid() && View() == AfterPublishAudio(old(View()), w)
    {
      hide PlaybackView, OwnershipView;
      hide Aligned, SpeechView, Proofs.Inv;
      Proofs.StepKeeps(config, View(), Action.PublishAudio(w));
      var Holding(index, success) := workers[w];
      events := events + [AudioReady(index, success)];
      audioQueue := audioQueue + [Audio(index, success)];
      workers := workers[w := Idle];
    }

    method WorkerQuits(w: nat, error: bool)
      requires Valid() && CanWorkerQuit(View(), w, error)
      modifies `workers, `flags
      ensures Valid() && View() == AfterWorkerQuits(old(View()), w, error)
    {
      hide MayQuit, Fail;
      hide PlaybackView, OwnershipView;
      hide Aligned, SpeechView, Proofs.Inv;
      Proofs.StepKeeps(config, View(), Action.WorkerQuits(w, error));
      workers := workers[w := Leaving];
      flags := Fail(flags, error);
    }

    method WorkerExits(w: nat)
      requires Valid() && CanWorkerExit(View(), w)
      modifies `workers, `audioQueue
      ensures Valid() && View() == AfterWorkerExits(old(View()), w)
    {
      hide PlaybackView, OwnershipView;
      hide Aligned, SpeechView, Proofs.Inv;
      Proofs.StepKeeps(config, View(), Action.WorkerExits(w));
      audioQueue := audioQueue + [WorkerGone];
      workers := workers[w := WorkerDone];
    }

    // ----- ordered_playback -----

    method TakeAudio()
      requires Valid() && CanTakeAudio(View())
      modifies `audioQueue, `finishedWorkers, `pending, `player
      ensures Valid() && View() == AfterTakeAudio(old(View()))
    {
      hide OwnershipView;
      hide Aligned, SpeechView, Proofs.Inv;
      Proofs.StepKeeps(config, View(), Action.TakeAudio);
      var indexedAudio := audioQueue[0];
      audioQueue := audioQueue[1..];
      match indexedAudio
      case WorkerGone =>
        finishedWorkers := finishedWorkers + 1;
        player := Draining;
      case Audio(index, success) =>
        pending := pending[index := success];
        player := Draining;
    }

    /** One turn of the inner loop, or its exit. */
    method DrainPending()
      requires Valid() && phase == Working && player == Draining && !flags.token
      modifies `pending, `nextIndex, `player, `events
      ensures Valid()
      ensures View() == Results.AfterDrainTurn(config, old(View()))
      ensures Results.InOrder(events)
    {
      hide OwnershipView, Results.InOrder;
      hide Aligned, SpeechView, Proofs.Inv;
      Results.DrainTurnKeeps(config, View());
      if nextIndex in pending {
        var success := pending[nextIndex];
        pending := pending - {nextIndex};
        if !success {
          events := events + [PlaybackSkipped(nextIndex)];
          nextIndex := nextIndex + 1;
        } else {
          events := events + [PlaybackStarted(nextIndex)];
          player := Playing(nextIndex);
        }
      } else {
        player := if finishedWorkers < config.Workers() then Waiting else PlayerDone;
      }
    }

    /** Play returned or raised; either way the `finally` starts to discard. */
    method PlayEnds(success: bool, error: bool)
      requires Valid() && CanPlayEnd(View(), success, error)
      modifies `flags, `discards, `player, `events
      ensures Valid() && View() == AfterPlayEnds(old(View()), success, error)
      ensures player.Discarding? && player.index in cleanup && discards[player.index] == 1
    {
      hide MayQuit, Fail;
      hide Aligned, SpeechView, Proofs.Inv;
      Results.PlayEndsOf(config, View(), success, error);
      if success {
        events := events + [PlaybackFinished(player.index)];
      }
      flags := Fail(flags, error);
      BeginDiscard(success);
    }

    /** `discard` is called: the result stays registered until it returns. */
    method BeginDiscard(finished: bool)
      requires player.Playing?
      modifies `discards, `player
      ensures player == Discarding(old(player).index, finished)
      ensures discards == old(discards) + multiset{old(player).index}
    {
      discards := discards + multiset{player.index};
      player := Discarding(player.index, finished);
    }

    method DiscardEnds()
      requires Valid() && CanDiscardEnd(View())
      modifies `cleanup, `nextIndex, `player
      ensures Valid() && View() == AfterDiscardEnds(old(View()))
      ensures old(player.index) !in cleanup && discards[old(player.index)] == 1
    {
      hide Aligned, SpeechView, Proofs.Inv;
      Proofs.StepKeeps(config, View(), Action.DiscardEnds);
      Results.DiscardingOf(config, View());
      cleanup := cleanup - {player.index};
      if player.finished {
        nextIndex := nextIndex + 1;
        player := Draining;
      } else {
        player := PlayerDone;
      }
    }

    method DiscardRaises(error: bool)
      requires Valid() && CanDiscardRaise(View(), error)
      modifies `discardFailed, `flags, `player
      ensures Valid() && View() == AfterDiscardRaises(old(View()), error)
    {
      hide MayQuit, Fail;
      hide Aligned, SpeechView, Proofs.Inv;
      Proofs.StepKeeps(config, View(), Action.DiscardRaises(error));
      discardFailed := Some(player.index);
      flags := Fail(flags, error);
      player := PlayerDone;
    }

    method PlayerQuits(error: bool)
      requires Valid() && CanPlayerQuit(View(), error)
      modifies `flags, `player
      ensures Valid() && View() == AfterPlayerQuits(old(View()), error)
    {
      hide MayQuit, Fail;
      hide OwnershipView;
      hide Aligned, SpeechView, Proofs.Inv;
      Proofs.StepKeeps(config, View(), Action.PlayerQuits(error));
      flags := Fail(flags, error);
      player := PlayerDone;
    }

    // ----- The end of _run_request -----

    method GroupEnds()
      requires Valid() && CanGroupEnd(View())
      modifies `phase
      ensures Valid() && View() == AfterGroupEnds(config, old(View()))
      ensures phase.ok ==> Results.Complete(config, View())
    {
      hide Aligned, SpeechView, Proofs.Inv;
      Proofs.StepKeeps(config, View(), Action.GroupEnds);
      var returned := !flags.failed && !flags.cancelled && !flags.token;
      if config.audioEnabled {
        phase := StoppingPlayer(returned);
      } else {
        phase := Cleaning(returned);
      }
      if phase.ok {
        Results.CompletionOf(config, View());
      }
    }

    /** When stopping the player raises, the rest of the `finally` is skipped. */
    method PlayerStopped(success: bool)
      requires Valid() && phase.StoppingPlayer?
      modifies `phase
      ensures Valid() && View() == AfterPlayerStopped(old(View()), success)
      ensures !success ==> (Results.AllDiscarded(OwnershipView()) <==> Results.Unattended(OwnershipView()) == {})
    {
      hide Aligned, SpeechView, Proofs.Inv;
      Proofs.StepKeeps(config, View(), Action.PlayerStopped(success));
      if success {
        phase := Cleaning(phase.ok);
      } else {
        phase := Ended(false, false);
      }
      if !success {
        Results.DiscardedOf(config, View());
      }
    }

    method DiscardRest()
      requires Valid() && phase.Cleaning?
      modifies `phase, `discards
      ensures Valid() && View() == AfterDiscardRest(old(View()))
      ensures Results.DiscardedOnce(OwnershipView())
    {
      hide Aligned, SpeechView, Proofs.Inv;
      Proofs.StepKeeps(config, View(), Action.DiscardRest);
      discards := discards + multiset(cleanup);
      phase := Ended(phase.ok, true);
      Results.DiscardedOf(config, View());
    }
  }
}
