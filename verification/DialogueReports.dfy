/** What a request reports to its listeners: the invariant of its published events. */
module DialogueReports {
  import opened Options
  import opened Segmentation
  import opened DialogueRun

  /** Something interrupted the run: from here on tasks may end early. */
  predicate Broken(flags: Flags) {
    flags.token || flags.failed || flags.aborting
  }

  /** Segments playback is done with or at. */
  function Played(p: Playback): nat {
    if p.player.Playing? || p.player.Discarding? then p.nextIndex + 1 else p.nextIndex
  }

  // ----- What is said of one segment -----

  function InWorkers(workers: seq<Worker>, i: nat): nat {
    multiset(workers)[Synthesizing(i)] + multiset(workers)[Holding(i, true)] + multiset(workers)[Holding(i, false)]
  }

  function Submitted(c: Config, speech: Speech): nat {
    if c.audioEnabled then |speech.completed| else 0
  }

  /** audio.ready is published once for each segment that has left the workers, with its outcome. */
  ghost predicate Ready(c: Config, s: State, i: nat) {
    var log, workers := multiset(s.events), multiset(s.workers);
    var here := multiset(s.jobs)[Job(i)] + InWorkers(s.workers, i) + log[AudioReady(i, true)] + log[AudioReady(i, false)];
    && here <= (if i < Submitted(c, s.speech) then 1 else 0)
    && (!Broken(s.flags) && i < Submitted(c, s.speech) ==> here == 1)
    && (workers[Holding(i, true)] > 0 || log[AudioReady(i, true)] > 0 ==> i in s.owned.synthesized)
    && (workers[Synthesizing(i)] > 0 || workers[Holding(i, false)] > 0 ==> i !in s.owned.synthesized)
    && (multiset(s.jobs)[Job(i)] > 0 || log[AudioReady(i, false)] > 0 ==> i !in s.owned.synthesized)
    && (i >= Submitted(c, s.speech) ==> i !in s.owned.synthesized)
  }

  /** playback.finished follows playback.started, once, before the player goes on to the next segment. */
  ghost predicate Finished(events: seq<Event>, p: Playback, i: nat) {
    var finished := multiset(events)[PlaybackFinished(i)];
    && finished <= (if PlaybackStarted(i) in events then 1 else 0)
    && (i < p.nextIndex && PlaybackStarted(i) in events ==> finished == 1)
    && (p.player == Discarding(i, true) ==> finished == 1)
    && (p.player == Playing(i) ==> finished == 0 && PlaybackStarted(i) in events)
    && (i >= Played(p) && p.player != PlayerDone ==> PlaybackStarted(i) !in events)
  }

  /** What the producer has published: each delta as it came, each segment with its text and position, and one
      job for each segment that is to be spoken. */
  ghost predicate Said(c: Config, events: seq<Event>, fullText: string, completed: seq<string>) {
    && Heard(events) == fullText
    && SegmentTexts(events) == completed
    && SegmentIndices(events) == UpTo(|completed|)
    && JobIndices(events) == UpTo(if c.audioEnabled then |completed| else 0)
  }

  ghost predicate Reported(c: Config, s: State) {
    && Said(c, s.events, s.speech.fullText, s.speech.completed)
    && (forall i: nat :: Ready(c, s, i))
    && (forall i: nat :: Finished(s.events, s.playback, i))
  }

  // ----- One more event -----

  lemma SaidMore(events: seq<Event>, e: Event)
    ensures Heard(events + [e]) == Heard(events) + if e.AssistantDelta? then e.text else ""
    ensures SegmentTexts(events + [e]) == SegmentTexts(events) + if e.AssistantSegment? then [e.text] else []
    ensures SegmentIndices(events + [e]) == SegmentIndices(events) + if e.AssistantSegment? then [e.index] else []
    ensures JobIndices(events + [e]) == JobIndices(events) + if e.TtsJob? then [e.index] else []
  {
    assert (events + [e])[..|events|] == events;
  }

  /** The events of workers and player leave the producer's alone. */
  lemma SaidStill(c: Config, events: seq<Event>, e: Event, fullText: string, completed: seq<string>)
    requires Said(c, events, fullText, completed)
    requires !e.AssistantDelta? && !e.AssistantSegment? && !e.TtsJob?
    ensures Said(c, events + [e], fullText, completed)
  {
    SaidMore(events, e);
  }

  /** And the producer's events leave theirs alone. */
  lemma FinishedStill(events: seq<Event>, e: Event, p: Playback, i: nat)
    requires Finished(events, p, i) && !e.PlaybackStarted? && !e.PlaybackFinished?
    ensures Finished(events + [e], p, i)
  {
  }

  /** Nothing changes for the workers, and at most one event is added that is not theirs. */
  predicate WorkersRest(c: Config, s: State, t: State) {
    && s.jobs == t.jobs && s.workers == t.workers
    && (t.events == s.events
        || (|t.events| > 0 && t.events[..|t.events| - 1] == s.events && !t.events[|t.events| - 1].AudioReady?))
    && Submitted(c, s.speech) == Submitted(c, t.speech) && s.owned.synthesized == t.owned.synthesized
    && (Broken(s.flags) ==> Broken(t.flags))
  }

  lemma ReadyStill(c: Config, s: State, t: State, i: nat)
    requires Ready(c, s, i) && WorkersRest(c, s, t)
    ensures Ready(c, t, i)
  {
    if t.events != s.events {
      assert t.events == s.events + [t.events[|t.events| - 1]];
    }
  }

  // ----- The steps of the producer -----

  lemma SaidAfterDelta(c: Config, events: seq<Event>, fullText: string, completed: seq<string>, delta: string)
    requires Said(c, events, fullText, completed)
    ensures Said(c, events + [AssistantDelta(delta)], fullText + delta, completed)
  {
    SaidMore(events, AssistantDelta(delta));
  }

  lemma SaidAfterSegment(c: Config, events: seq<Event>, fullText: string, completed: seq<string>, text: string)
    requires Said(c, events, fullText, completed)
    ensures var announced := events + [AssistantSegment(|completed|, text)];
            Said(c, if c.audioEnabled then announced + [TtsJob(|completed|)] else announced, fullText, completed + [text])
  {
    var index := |completed|;
    SaidMore(events, AssistantSegment(index, text));
    SaidMore(events + [AssistantSegment(index, text)], TtsJob(index));
    assert UpTo(index) + [index] == UpTo(index + 1);
  }

  lemma ReadyAfterSegment(c: Config, s: State, i: nat)
    requires CanQueueSegment(s) && Ready(c, s, i) && (!c.audioEnabled ==> s.jobs == [])
    ensures Ready(c, AfterQueueSegment(c, s), i)
  {
    var t := AfterQueueSegment(c, s);
    assert t.events == s.events + t.events[|s.events|..];
  }

  lemma FinishedAfterSegment(c: Config, s: State, i: nat)
    requires CanQueueSegment(s) && Finished(s.events, s.playback, i)
    ensures Finished(AfterQueueSegment(c, s).events, s.playback, i)
  {
    var index := |s.speech.completed|;
    var segment := AssistantSegment(index, s.speech.producer.batch[0]);
    FinishedStill(s.events, segment, s.playback, i);
    FinishedStill(s.events + [segment], TtsJob(index), s.playback, i);
  }

  lemma ProducerReports(c: Config, s: State, a: Action)
    requires c.Valid() && Enabled(c, s, a) && Reported(c, s) && (!c.audioEnabled ==> s.jobs == [])
    requires a.ReceiveDelta? || a.QueueSegment?
    ensures Reported(c, Do(c, s, a))
  {
    hide Said, Ready, Finished, Settings.Feed;
    var t := Do(c, s, a);
    if a.ReceiveDelta? {
      SaidAfterDelta(c, s.events, s.speech.fullText, s.speech.completed, s.speech.incoming[0]);
    } else {
      SaidAfterSegment(c, s.events, s.speech.fullText, s.speech.completed, s.speech.producer.batch[0]);
    }
    forall i: nat ensures Ready(c, t, i) && Finished(t.events, t.playback, i) {
      if a.ReceiveDelta? {
        ReadyStill(c, s, t, i);
        FinishedStill(s.events, AssistantDelta(s.speech.incoming[0]), s.playback, i);
      } else {
        ReadyAfterSegment(c, s, i);
        FinishedAfterSegment(c, s, i);
      }
    }
  }

  // ----- The steps of the workers -----

  lemma ReadyAfterTake(c: Config, s: State, w: nat, i: nat)
    requires CanTakeJob(s, w) && Ready(c, s, i)
    ensures Ready(c, AfterTakeJob(s, w), i)
  {
    assert s.jobs == [s.jobs[0]] + s.jobs[1..];
  }

  lemma ReadyAfterSynthesis(c: Config, s: State, w: nat, success: bool, i: nat)
    requires CanSynthesize(s, w) && Ready(c, s, i)
    ensures Ready(c, AfterSynthesized(s, w, success), i)
  {
    assert s.workers[w] in multiset(s.workers);
  }

  lemma ReadyAfterPublishing(c: Config, s: State, w: nat, i: nat)
    requires CanPublishAudio(s, w) && Ready(c, s, i)
    ensures Ready(c, AfterPublishAudio(s, w), i)
  {
    assert s.workers[w] in multiset(s.workers);
  }

  lemma ReadyAfterLeaving(c: Config, s: State, t: State, w: nat, i: nat)
    requires w < |s.workers| && Ready(c, s, i)
    requires t.jobs == s.jobs && t.events == s.events && t.speech == s.speech && t.owned == s.owned
    requires t.workers == s.workers[w := Leaving] || t.workers == s.workers[w := WorkerDone]
    requires (Broken(s.flags) ==> Broken(t.flags)) && (Broken(t.flags) || s.workers[w] == Leaving)
    ensures Ready(c, t, i)
  {
  }

  lemma WorkerReports(c: Config, s: State, a: Action)
    requires c.Valid() && Enabled(c, s, a) && Reported(c, s)
    requires a.TakeJob? || a.Synthesized? || a.PublishAudio? || a.WorkerQuits? || a.WorkerExits?
    ensures Reported(c, Do(c, s, a))
  {
    hide Said, Ready, Finished;
    var t := Do(c, s, a);
    forall i: nat ensures Ready(c, t, i) && Finished(t.events, t.playback, i) {
      match a
      case TakeJob(w) => ReadyAfterTake(c, s, w, i);
      case Synthesized(w, success) => ReadyAfterSynthesis(c, s, w, success, i);
      case PublishAudio(w) =>
        ReadyAfterPublishing(c, s, w, i);
        FinishedStill(s.events, AudioReady(s.workers[w].index, s.workers[w].success), s.playback, i);
      case WorkerQuits(w, _) => ReadyAfterLeaving(c, s, t, w, i);
      case WorkerExits(w) => ReadyAfterLeaving(c, s, t, w, i);
    }
    if a.PublishAudio? {
      var holding := s.workers[a.worker];
      SaidStill(c, s.events, AudioReady(holding.index, holding.success), s.speech.fullText, s.speech.completed);
    }
  }

  // ----- The steps of the player -----

  /** A segment that is played or discarded is the next one. */
  predicate PlaysNext(p: Playback) {
    p.player.Playing? || p.player.Discarding? ==> p.player.index == p.nextIndex
  }

  lemma FinishedAfterPlayer(c: Config, s: State, a: Action, i: nat)
    requires c.Valid() && Enabled(c, s, a) && Finished(s.events, s.playback, i) && PlaysNext(s.playback)
    requires a.TakeAudio? || a.SkipNext? || a.StartNext? || a.DrainDone? || a.PlayEnds? || a.DiscardEnds?
          || a.DiscardRaises? || a.PlayerQuits?
    ensures var t := Do(c, s, a);
            Finished(t.events, t.playback, i)
  {
  }

  lemma SaidAfterPlayer(c: Config, s: State, a: Action)
    requires c.Valid() && Enabled(c, s, a) && Said(c, s.events, s.speech.fullText, s.speech.completed)
    requires a.TakeAudio? || a.SkipNext? || a.StartNext? || a.DrainDone? || a.PlayEnds? || a.DiscardEnds?
          || a.DiscardRaises? || a.PlayerQuits?
    ensures var t := Do(c, s, a);
            Said(c, t.events, t.speech.fullText, t.speech.completed) && WorkersRest(c, s, t)
  {
    hide Said;
    var t := Do(c, s, a);
    if t.events != s.events {
      assert t.events == s.events + [t.events[|s.events|]];
      SaidStill(c, s.events, t.events[|s.events|], s.speech.fullText, s.speech.completed);
    }
  }

  lemma PlayerReports(c: Config, s: State, a: Action)
    requires c.Valid() && Enabled(c, s, a) && Reported(c, s) && PlaysNext(s.playback)
    requires a.TakeAudio? || a.SkipNext? || a.StartNext? || a.DrainDone? || a.PlayEnds? || a.DiscardEnds?
          || a.DiscardRaises? || a.PlayerQuits?
    ensures Reported(c, Do(c, s, a))
  {
    hide Said, Ready, Finished, WorkersRest, Do, Enabled;
    SaidAfterPlayer(c, s, a);
    var t := Do(c, s, a);
    forall i: nat ensures Ready(c, t, i) && Finished(t.events, t.playback, i) {
      ReadyStill(c, s, t, i);
      FinishedAfterPlayer(c, s, a, i);
    }
  }

  // ----- All other steps publish nothing -----

  lemma ReadyAfterSentinel(c: Config, s: State, i: nat)
    requires CanPutSentinel(s) && Ready(c, s, i)
    ensures Ready(c, AfterPutSentinel(s), i)
  {
  }

  lemma SilentReports(c: Config, s: State, a: Action)
    requires c.Valid() && Enabled(c, s, a) && Reported(c, s)
    requires a.SetToken? || a.CancelRun? || a.AbortGroup? || a.EndStream? || a.BatchDone? || a.ProducerQuits?
          || a.PutSentinel? || a.ProducerExits? || a.GroupEnds? || a.PlayerStopped? || a.DiscardRest?
    ensures Reported(c, Do(c, s, a))
  {
    hide Said, Ready, Finished, Settings.Flush;
    var t := Do(c, s, a);
    forall i: nat ensures Ready(c, t, i) {
      if a.PutSentinel? {
        ReadyAfterSentinel(c, s, i);
      } else {
        ReadyStill(c, s, t, i);
      }
    }
  }

  lemma FlagsReport(c: Config, s: State, flags: Flags)
    requires Reported(c, s) && (Broken(s.flags) ==> Broken(flags))
    ensures Reported(c, s.(flags := flags))
  {
    hide Said, Ready, Finished;
    forall i: nat ensures Ready(c, s.(flags := flags), i) {
      ReadyStill(c, s, s.(flags := flags), i);
    }
  }

  /** Every step keeps what the events say in agreement with what happened. */
  lemma ReportsKeep(c: Config, s: State, a: Action)
    requires c.Valid() && Enabled(c, s, a) && Reported(c, s)
    requires PlaysNext(s.playback) && (!c.audioEnabled ==> s.jobs == [])
    ensures Reported(c, Do(c, s, a))
  {
    hide Reported, Enabled, Do;
    match a
    case ReceiveDelta => ProducerReports(c, s, a);
    case QueueSegment => ProducerReports(c, s, a);
    case TakeJob(_) => WorkerReports(c, s, a);
    case Synthesized(_, _) => WorkerReports(c, s, a);
    case PublishAudio(_) => WorkerReports(c, s, a);
    case WorkerQuits(_, _) => WorkerReports(c, s, a);
    case WorkerExits(_) => WorkerReports(c, s, a);
    case TakeAudio => PlayerReports(c, s, a);
    case SkipNext => PlayerReports(c, s, a);
    case StartNext => PlayerReports(c, s, a);
    case DrainDone => PlayerReports(c, s, a);
    case PlayEnds(_, _) => PlayerReports(c, s, a);
    case DiscardEnds => PlayerReports(c, s, a);
    case DiscardRaises(_) => PlayerReports(c, s, a);
    case PlayerQuits(_) => PlayerReports(c, s, a);
    case _ => SilentReports(c, s, a);
  }
}
