/** `PerceptionPipeline` of app/perception/pipeline.py: one observation over frames and OCR results that are
    wiped in place. */
module PerceptionPipelines {
  import opened Options
  import opened ChangeDetection
  import opened Perception
  import PerceptionRuns

  class ImageFrame {
    var data: seq<int>
    const width: int
    const height: int
    var hash: Option<nat>
    ghost var redacted: seq<Rect>  // the regions a sanitizer has blacked out

    constructor (data: seq<int>, width: int, height: int, hash: Option<nat>)
      ensures this.data == data && this.width == width && this.height == height && this.hash == hash
      ensures redacted == []
    {
      this.data, this.width, this.height, this.hash, redacted := data, width, height, hash, [];
    }

    ghost predicate Wiped()
      reads this
    {
      data == [] && hash == None
    }

    method Wipe()
      modifies `data, `hash
      ensures Wiped()
    {
      data, hash := [], None;
    }
  }

  class OcrText {
    var spans: seq<Span>

    constructor (spans: seq<Span>)
      ensures this.spans == spans
    {
      this.spans := spans;
    }

    ghost predicate Wiped()
      reads this
    {
      spans == []
    }

    method Wipe()
      modifies this
      ensures Wiped()
    {
      spans := [];
    }
  }

  /** What the detector's history becomes when the frame is that of `key` with `mark`. */
  ghost predicate Takes(effect: Effect, before: seq<Committed>, after: seq<Committed>, key: Key, mark: Mark) {
    match effect
    case Keep => after == before
    case Reset => after == []
    case Store(sensitive, checked) => after == before + [Committed(key, mark, sensitive, checked)]
  }

  const NO_FRAME: Mark := Mark(None, 0)

  ghost predicate Contains(regions: seq<Rect>, part: seq<Rect>) {
    forall r :: r in part ==> r in regions
  }

  /** The regions blacked out in what the cloud sees: configured ones, the guard's, and all recognized text. */
  ghost predicate FullyRedacted(i: Inputs, regions: seq<Rect>)
    requires Passed(i)
  {
    CoversText(regions, i.ocr.value) && Contains(regions, i.alwaysRedact) && Contains(regions, i.guard.value.regions)
  }

  /** The buffers that capture, OCR and sanitizer hand over when they are asked and answer. */
  datatype Buffers = Buffers(frame: ImageFrame, text: OcrText, cleaned: ImageFrame)

  ghost predicate HoldAnswers(i: Inputs, b: Buffers)
    reads b.frame, b.text
  {
    && b.frame != b.cleaned
    && (i.capture.Delivered? ==>
          && b.frame.data == i.capture.value.data && b.frame.hash == i.capture.value.hash
          && b.frame.width == i.capture.value.width && b.frame.height == i.capture.value.height)
    && (i.ocr.Delivered? ==> b.text.spans == i.ocr.value)
  }

  /** Is the window captured, its text read, a new frame made of it? */
  predicate Captures(i: Inputs) {
    PreCapture(i).None? && i.capture.Delivered?
  }

  predicate ReadsText(i: Inputs, changed: bool, previous: bool) {
    PreCapture(i).None? && Screening(i, changed, previous).None? && i.ocr.Delivered?
  }

  predicate Sanitizes(i: Inputs, changed: bool, previous: bool) {
    && PreCapture(i).None? && Screening(i, changed, previous).None? && LocalStage(i).None?
    && ReachesSanitizer(i) && i.sanitize.Delivered? && i.sanitize.value.NewFrame?
  }

  predicate ReachesSanitizer(i: Inputs) {
    && i.capture.Delivered? && i.ocr.Delivered? && i.cloudConfigured && i.cloudOn(BeforeCloud)
    && AllLocated(i.ocr.value, i.capture.value.width, i.capture.value.height)
    && i.limiterAllows && i.visionOn(AfterLimiter) && i.cloudOn(AfterLimiter)
  }

  /** The cloud adapter, with the frames it was given. */
  class CloudVision {
    ghost var seen: seq<ImageFrame>

    constructor ()
      ensures seen == []
    {
      seen := [];
    }

    /** A frame leaves the machine only through this call, so its precondition is what every caller has to have
        established by then: the frame is a fully redacted one, and the raw frame and its text are gone. */
    method Analyze(frame: ImageFrame, ghost raw: Buffers, i: Inputs) returns (reply: Reply<CloudAnalysis>)
      requires Passed(i) && frame != raw.frame && FullyRedacted(i, frame.redacted)
      requires raw.frame.Wiped() && raw.text.Wiped()
      modifies this
      ensures seen == old(seen) + [frame] && reply == i.cloud
    {
      seen := seen + [frame];
      return i.cloud;
    }
  }

  class PerceptionPipeline {
    const detector: FrameChangeDetector
    const cloud: CloudVision

    constructor (detector: FrameChangeDetector, cloud: CloudVision)
      ensures this.detector == detector && this.cloud == cloud
    {
      this.detector, this.cloud := detector, cloud;
    }

    /** What the detector makes of the captured frame. */
    ghost function FrameMark(i: Inputs): Mark {
      if i.capture.Delivered?
      then PerceptionRuns.MarkOf(PerceptionRuns.Measure(detector.minimumDistance, detector.digestOf), i)
      else NO_FRAME
    }

    method DisabledResult() returns (outcome: Outcome)
      requires detector.Valid()
      modifies detector
      ensures detector.Valid() && outcome == DISABLED.outcome && detector.history == []
    {
      detector.Reset();
      return DISABLED.outcome;
    }

    /** Commits a completed, locally checked observation. */
    method SafeResult(i: Inputs, a: Assessment, status: Status, context: Context, reason: Option<string>)
      returns (outcome: Outcome)
      requires detector.Valid()
      modifies detector
      ensures detector.Valid()
      ensures outcome == Safe(i, status, context, reason).outcome
      ensures Takes(Safe(i, status, context, reason).effect, old(detector.history), detector.history, a.key, a.FrameMark())
    {
      if !i.visionOn(AtResult) {
        outcome := DisabledResult();
        return;
      }
      if !i.committable {
        return Plain(ProcessingError, "change_commit_failed").outcome;
      }
      detector.Commit(a, false, true);
      return Returned(Result(status, Some(context), reason));
    }

    /** Active window, window guard and gates: None means that the window may be captured. */
    method CheckWindow(i: Inputs) returns (done: Option<Outcome>)
      requires detector.Valid()
      modifies detector
      ensures detector.Valid() && (done.Some? <==> PreCapture(i).Some?)
      ensures done.Some? ==> done.value == PreCapture(i).value.outcome
      ensures if done.Some? then Takes(PreCapture(i).value.effect, old(detector.history), detector.history, "", NO_FRAME)
              else unchanged(detector)
    {
      if i.window.Interrupted? {
        return Some(Cancelled);
      }
      if i.window.Failed? {
        return Some(Plain(GuardError, "pre_capture_guard_failed").outcome);
      }
      if !i.visionOn(AfterWindow) {
        var outcome := DisabledResult();
        return Some(outcome);
      }
      if i.decision.Interrupted? {
        return Some(Cancelled);
      }
      if i.decision.Failed? {
        return Some(Plain(GuardError, "pre_capture_guard_failed").outcome);
      }
      if !i.visionOn(AfterDecision) {
        var outcome := DisabledResult();
        return Some(outcome);
      }
      if i.decision.value.block {
        return Some(Returned(Result(BlockedBeforeCapture, Some(SENSITIVE), Some(i.decision.value.reason))));
      }
      if !i.visionOn(BeforeCapture) {
        var outcome := DisabledResult();
        return Some(outcome);
      }
      return None;
    }

    /** Captures the window and compares the frame with the last one of the window. */
    method Screen(i: Inputs, window: Key, delivered: ImageFrame)
      returns (done: Option<Outcome>, frame: ImageFrame?, a: Assessment)
      requires detector.Valid()
      requires i.capture.Delivered? ==> delivered.data == i.capture.value.data && delivered.hash == i.capture.value.hash
      modifies detector
      ensures detector.Valid() && a.key == window
      ensures frame == if i.capture.Delivered? then delivered else null
      ensures var changed := i.capture.Delivered?
                             && old(detector.SeesChange(window, i.capture.value.data, i.capture.value.hash));
              var decision := Screening(i, changed, old(detector.WasSensitive(window)));
              && (done.Some? <==> decision.Some?) && (done.Some? ==> done.value == decision.value.outcome)
              && (done.Some? ==> Takes(decision.value.effect, old(detector.history), detector.history, window, FrameMark(i)))
              && (done.None? ==> a.FrameMark() == FrameMark(i))
              && (done.None? ==> detector.history == old(detector.history) && frame != null)
    {
      a, frame := Assessment(window, 0, None, true, false), null;
      if i.capture.Interrupted? {
        return Some(Cancelled), frame, a;
      }
      if i.capture.Failed? {
        return Some(Plain(CaptureError, "capture_failed").outcome), frame, a;
      }
      frame := delivered;
      if !i.visionOn(AfterCapture) {
        var outcome := DisabledResult();
        return Some(outcome), frame, a;
      }
      if |frame.data| > i.maxFrameBytes {
        return Some(Plain(CaptureError, "capture_failed").outcome), frame, a;
      }
      if !i.comparable {
        return Some(Plain(ProcessingError, "change_detection_failed").outcome), frame, a;
      }
      a := detector.Compare(window, frame.data, frame.hash);
      if !a.changed {
        if !i.committable {
          return Some(Plain(ProcessingError, "change_detection_failed").outcome), frame, a;
        }
        detector.Commit(a, a.previousSensitive, false);
        return Some(Returned(Result(Unchanged, if a.previousSensitive then Some(SENSITIVE) else None,
                                    if a.previousSensitive then Some("sticky_sensitive_context") else None))), frame, a;
      }
      return None, frame, a;
    }

    /** Reads the frame's text, asks the content guard, and classifies the scene locally. */
    method ReadFrame(i: Inputs, a: Assessment, delivered: OcrText) returns (done: Option<Outcome>, text: OcrText?)
      requires detector.Valid()
      modifies detector
      ensures detector.Valid() && text == if i.ocr.Delivered? then delivered else null
      ensures (done.Some? <==> LocalStage(i).Some?) && (done.Some? ==> done.value == LocalStage(i).value.outcome)
      ensures done.Some? ==> Takes(LocalStage(i).value.effect, old(detector.history), detector.history, a.key, a.FrameMark())
      ensures done.None? ==> detector.history == old(detector.history) && text != null
    {
      text := null;
      if i.ocr.Interrupted? {
        return Some(Cancelled), text;
      }
      if i.ocr.Failed? {
        return Some(Plain(OcrError, "ocr_failed").outcome), text;
      }
      text := delivered;
      if !i.visionOn(AfterOcr) {
        var outcome := DisabledResult();
        return Some(outcome), text;
      }
      if i.guard.None? {
        return Some(Plain(GuardError, "content_guard_failed").outcome), text;
      }
      var verdict := i.guard.value;
      if verdict.block {
        if i.committable {
          detector.Commit(a, true, true);
        }
        var reason := if verdict.reasons != [] then verdict.reasons[0] else "sensitive_content";
        return Some(Returned(Result(BlockedAfterOcr, Some(SENSITIVE), Some(reason)))), text;
      }
      if !i.visionOn(AfterGuard) {
        var outcome := DisabledResult();
        return Some(outcome), text;
      }
      if i.classify.None? || i.redact(i.classify.value.summary).None? {
        return Some(Plain(ProcessingError, "scene_classification_failed").outcome), text;
      }
      return None, text;
    }

    /** The sanitizer's answer: a new frame with the regions blacked out, or the frame it was given. */
    method Blacken(answer: Sanitized, frame: ImageFrame, delivered: ImageFrame, ghost regions: seq<Rect>)
      returns (result: ImageFrame)
      modifies delivered`redacted
      ensures result == (if answer.NewFrame? then delivered else frame)
      ensures if answer.NewFrame? then delivered.redacted == regions else unchanged(delivered)
    {
      if answer.SameFrame? {
        return frame;
      }
      delivered.redacted := regions;
      return delivered;
    }

    /** Decides whether the cloud may see the frame, and makes the sanitized one it would see. */
    method Sanitize(
      i: Inputs, a: Assessment, local: Context, located: Option<seq<Rect>>, frame: ImageFrame, delivered: ImageFrame)
      returns (done: Option<Outcome>, sanitized: ImageFrame?)
      requires detector.Valid() && Passed(i) && frame != delivered
      requires located.Some? <==> AllLocated(i.ocr.value, i.capture.value.width, i.capture.value.height)
      requires located.Some? ==> CoversText(located.value, i.ocr.value)
      modifies detector, frame, delivered`redacted
      ensures detector.Valid() && (sanitized == null || sanitized == frame || sanitized == delivered)
      ensures sanitized == delivered <==> ReachesSanitizer(i) && i.sanitize.Delivered? && i.sanitize.value.NewFrame?
      ensures sanitized != delivered ==> unchanged(delivered)
      ensures var decision := BeforeSending(i, local);
              && (done.Some? <==> decision.Some?) && (done.Some? ==> done.value == decision.value.outcome)
              && (done.Some? ==> Takes(decision.value.effect, old(detector.history), detector.history, a.key, a.FrameMark()))
      ensures done.None? ==> detector.history == old(detector.history) && frame.Wiped()
                             && sanitized == delivered && FullyRedacted(i, delivered.redacted)
    {
      hide FrameChangeDetector.Valid, Safe;
      sanitized := null;
      var outcome: Outcome;
      if !i.cloudConfigured || !i.cloudOn(BeforeCloud) {
        outcome := SafeResult(i, a, AnalyzedLocal, local, None);
        return Some(outcome), sanitized;
      }
      if located.None? {
        outcome := SafeResult(i, a, AnalyzedLocal, local, Some("cloud_ocr_redaction_unavailable"));
        return Some(outcome), sanitized;
      }
      if !i.limiterAllows {
        outcome := SafeResult(i, a, CloudRateLimited, local, None);
        return Some(outcome), sanitized;
      }
      if !i.visionOn(AfterLimiter) {
        outcome := DisabledResult();
        return Some(outcome), sanitized;
      }
      if !i.cloudOn(AfterLimiter) {
        outcome := SafeResult(i, a, AnalyzedLocal, local, None);
        return Some(outcome), sanitized;
      }
      if i.sanitize.Interrupted? {
        return Some(Cancelled), sanitized;
      }
      if i.sanitize.Delivered? {
        var regions := i.alwaysRedact + i.guard.value.regions + located.value;
        sanitized := Blacken(i.sanitize.value, frame, delivered, regions);
      }
      if sanitized == null || sanitized == frame {
        outcome := SafeResult(i, a, AnalyzedLocal, local, Some("cloud_redaction_failed"));
        return Some(outcome), sanitized;
      }
      frame.Wipe();
      if !i.visionOn(AfterSanitize) {
        outcome := DisabledResult();
        return Some(outcome), sanitized;
      }
      if !i.cloudOn(AfterSanitize) {
        outcome := SafeResult(i, a, AnalyzedLocal, local, None);
        return Some(outcome), sanitized;
      }
      return None, sanitized;
    }

    /** What the cloud's answer to the sanitized frame comes to. */
    method UseAnswer(i: Inputs, reply: Reply<CloudAnalysis>, a: Assessment, local: Context) returns (outcome: Outcome)
      requires detector.Valid() && reply == i.cloud
      modifies detector
      ensures detector.Valid() && outcome == AfterSending(i, local).outcome
      ensures Takes(AfterSending(i, local).effect, old(detector.history), detector.history, a.key, a.FrameMark())
    {
      if reply.Interrupted? {
        return Cancelled;
      }
      if reply.Failed? {
        return Plain(CloudError, "cloud_processing_failed").outcome;
      }
      if !i.visionOn(AfterCloud) {
        outcome := DisabledResult();
        return;
      }
      if !i.cloudOn(AfterCloud) {
        outcome := SafeResult(i, a, AnalyzedLocal, local, None);
        return;
      }
      var answer := reply.value;
      var summary := i.redact(answer.summary);
      if answer.confidence.NotFinite? || summary.None? {
        return Plain(CloudError, "cloud_processing_failed").outcome;
      }
      var safe := i.safeCategory(answer.category);
      var category := if safe.Some? then safe.value else local.category;
      var context := Context(category, summary.value, Clamped(answer.confidence.value), false);
      outcome := SafeResult(i, a, AnalyzedCloud, context, None);
    }

    // ----- One observation -----

    ghost predicate Changed(i: Inputs)
      reads detector
    {
      i.capture.Delivered? && detector.SeesChange(WindowKey(i), i.capture.value.data, i.capture.value.hash)
    }

    ghost predicate Previous(i: Inputs)
      reads detector
    {
      detector.WasSensitive(WindowKey(i))
    }

    /** What the detector answers fits the commits it has seen. */
    lemma DetectorFits(i: Inputs, resetMeanwhile: bool)
      requires detector.Valid() && i.capture.Delivered?
      ensures PerceptionRuns.Fits(
                PerceptionRuns.Measure(detector.minimumDistance, detector.digestOf), detector.history,
                PerceptionRuns.Observation(i, Changed(i), Previous(i), resetMeanwhile))
    {
      hide CountsAsChanged;
      detector.ChangeIsSeen(WindowKey(i), i.capture.value.data, i.capture.value.hash);
      detector.KnownVerdict(WindowKey(i));
    }

    /** The observation comes out as `Decide` says.  Every buffer that was handed over is wiped whatever happens,
        and the cloud is called exactly when `Sends` allows it, with the sanitizer's frame. */
    method ObserveOnce(i: Inputs, b: Buffers) returns (outcome: Outcome)
      requires detector.Valid() && HoldAnswers(i, b)
      modifies detector, cloud, b.frame, b.text, b.cleaned
      ensures detector.Valid()
      ensures outcome == Decide(i, old(Changed(i)), old(Previous(i))).outcome
      ensures Takes(Decide(i, old(Changed(i)), old(Previous(i))).effect, old(detector.history), detector.history,
                    WindowKey(i), FrameMark(i))
      ensures if Captures(i) then b.frame.Wiped() else unchanged(b.frame)
      ensures if ReadsText(i, old(Changed(i)), old(Previous(i))) then b.text.Wiped() else unchanged(b.text)
      ensures if Sanitizes(i, old(Changed(i)), old(Previous(i))) then b.cleaned.Wiped() else unchanged(b.cleaned)
      ensures cloud.seen == old(cloud.seen) + if Sends(i, old(Changed(i)), old(Previous(i))) then [b.cleaned] else []
    {
      hide FrameChangeDetector.Valid, PreCapture, Screening, LocalStage, BeforeSending, AfterSending, FullyRedacted;
      hide ReachesSanitizer, FrameMark, PerceptionRuns.MarkOf;
      var done := CheckWindow(i);
      if done.Some? {
        NoStoreBeforeCapture(i);
        return done.value;
      }
      WindowIsKnown(i);
      ScreeningNeedsCapture(i, old(Changed(i)), old(Previous(i)));
      var frame, a;
      done, frame, a := Screen(i, i.window.value, b.frame);
      if done.Some? {
        outcome := done.value;
      } else {
        outcome := Analyze(i, b, a, old(Changed(i)), old(Previous(i)));
      }
      if frame != null {
        frame.Wipe();
      }
    }

    /** The part of an observation that reads the frame's text, and its share of the source's `finally`. */
    method Analyze(i: Inputs, b: Buffers, a: Assessment, ghost changed: bool, ghost previous: bool)
      returns (outcome: Outcome)
      requires detector.Valid() && HoldAnswers(i, b) && i.capture.Delivered?
      requires PreCapture(i).None? && Screening(i, changed, previous).None?
      modifies detector, cloud, b.frame, b.text, b.cleaned
      ensures detector.Valid()
      ensures outcome == Decide(i, changed, previous).outcome
      ensures Takes(Decide(i, changed, previous).effect, old(detector.history), detector.history, a.key, a.FrameMark())
      ensures if ReadsText(i, changed, previous) then b.text.Wiped() else unchanged(b.text)
      ensures if Sanitizes(i, changed, previous) then b.cleaned.Wiped() else unchanged(b.cleaned)
      ensures cloud.seen == old(cloud.seen) + if Sends(i, changed, previous) then [b.cleaned] else []
    {
      hide FrameChangeDetector.Valid, PreCapture, Screening, LocalStage, BeforeSending, AfterSending, FullyRedacted;
      hide ReachesSanitizer, Takes, Decide, Sends, Sanitizes, ReadsText, HoldAnswers, LocalContext;
      OnceScreened(i, changed, previous);
      BuffersHold(i, b);
      var done, text := ReadFrame(i, a, b.text);
      var sanitized: ImageFrame? := null;
      ScreeningNeedsCapture(i, changed, previous);
      if done.Some? {
        outcome := done.value;
      } else {
        LocalIsKnown(i, changed, previous);
        var located := OcrRedactionRegions(text.spans, b.frame.width, b.frame.height);
        text.Wipe();
        var local := LocalContext(i);
        done, sanitized := Sanitize(i, a, local, located, b.frame, b.cleaned);
        if done.Some? {
          outcome := done.value;
        } else {
          var reply := cloud.Analyze(sanitized, b, i);
          outcome := UseAnswer(i, reply, a, local);
        }
      }
      if text != null {
        text.Wipe();
      }
      if sanitized != null {
        sanitized.Wipe();
      }
    }

    /** `observe`: the feature is asked before and after waiting for the observation lock, and a cancellation
        by the pipeline's own life cycle counts as disabled. */
    method Observe(i: Inputs, b: Buffers, enabledOnCall: bool, enabledWithLock: bool, byLifecycle: bool)
      returns (outcome: Outcome)
      requires detector.Valid() && HoldAnswers(i, b)
      modifies detector, cloud, b.frame, b.text, b.cleaned
      ensures detector.Valid()
      ensures !enabledOnCall || !enabledWithLock ==>
                outcome == DISABLED.outcome && cloud.seen == old(cloud.seen)
                && unchanged(b.frame) && unchanged(b.text) && unchanged(b.cleaned)
      ensures enabledOnCall && enabledWithLock && Captures(i) ==> b.frame.Wiped()
      ensures outcome == DISABLED.outcome ==> detector.history == []
      ensures outcome == Cancelled ==> !byLifecycle && detector.history == old(detector.history)
      ensures outcome != DISABLED.outcome ==> outcome == Decide(i, old(Changed(i)), old(Previous(i))).outcome
    {
      if !enabledOnCall || !enabledWithLock {
        outcome := DisabledResult();
        return;
      }
      outcome := ObserveOnce(i, b);
      CancelledKeeps(i, old(Changed(i)), old(Previous(i)));
      DisabledResets(i, old(Changed(i)), old(Previous(i)));
      hide Decide;
      if outcome == Cancelled && byLifecycle {
        outcome := DisabledResult();
      }
    }
  }

  /** What is left to decide once the frame has passed the screening. */
  lemma OnceScreened(i: Inputs, changed: bool, previous: bool)
    requires PreCapture(i).None? && Screening(i, changed, previous).None?
    ensures Decide(i, changed, previous) ==
            if LocalStage(i).Some? then LocalStage(i).value
            else if BeforeSending(i, LocalContext(i)).Some? then BeforeSending(i, LocalContext(i)).value
            else AfterSending(i, LocalContext(i))
    ensures ReadsText(i, changed, previous) <==> i.ocr.Delivered?
    ensures Sanitizes(i, changed, previous) <==>
            LocalStage(i).None? && ReachesSanitizer(i) && i.sanitize.Delivered? && i.sanitize.value.NewFrame?
    ensures Sends(i, changed, previous) <==> LocalStage(i).None? && BeforeSending(i, LocalContext(i)).None?
  {
    hide ReachesSanitizer, PreCapture, BeforeSending, AfterSending;
  }

  lemma BuffersHold(i: Inputs, b: Buffers)
    requires HoldAnswers(i, b)
    ensures b.frame != b.cleaned && (i.ocr.Delivered? ==> b.text.spans == i.ocr.value)
    ensures i.capture.Delivered? ==> b.frame.width == i.capture.value.width && b.frame.height == i.capture.value.height
  {
  }

  lemma NoStoreBeforeCapture(i: Inputs)
    requires PreCapture(i).Some?
    ensures !PreCapture(i).value.effect.Store?
  {
  }

  lemma WindowIsKnown(i: Inputs)
    requires PreCapture(i).None?
    ensures i.window.Delivered?
  {
  }

  lemma ScreeningNeedsCapture(i: Inputs, changed: bool, previous: bool)
    ensures Screening(i, changed, previous).None? ==> i.capture.Delivered?
    ensures LocalStage(i).None? ==> i.ocr.Delivered?
  {
  }

  lemma LocalIsKnown(i: Inputs, changed: bool, previous: bool)
    requires Screening(i, changed, previous).None? && LocalStage(i).None?
    ensures Passed(i) && i.classify.Some? && i.redact(i.classify.value.summary).Some? && i.capture.Delivered?
  {
  }

  lemma CancelledKeeps(i: Inputs, changed: bool, previous: bool)
    ensures Decide(i, changed, previous).outcome == Cancelled ==> Decide(i, changed, previous).effect == Keep
  {
  }
}
