/** The decisions of `PerceptionPipeline._observe_once` in app/perception/pipeline.py.

    Everything an observation learns from the outside is gathered in `Inputs`: what each adapter answers and
    what the feature gates say at each point where they are read. */
module Perception {
  import opened Options

  datatype Rect = Rect(x: int, y: int, width: int, height: int)
  datatype Span = Span(text: string, box: Option<Rect>)

  /** An awaited adapter delivers, fails or times out, or the observation is cancelled while it waits. */
  datatype Reply<T> = Delivered(value: T) | Failed | Interrupted

  datatype Status =
    | Disabled | BlockedBeforeCapture | BlockedAfterOcr | Unchanged | AnalyzedLocal | AnalyzedCloud | CloudRateLimited
    | GuardError | CaptureError | OcrError | ProcessingError | CloudError

  datatype Context = Context(category: string, summary: string, confidence: real, sensitive: bool)
  datatype Result = Result(status: Status, context: Option<Context>, reason: Option<string>)

  datatype Outcome = Returned(result: Result) | Cancelled

  datatype WindowDecision = WindowDecision(block: bool, reason: string)
  datatype ContentDecision = ContentDecision(block: bool, reasons: seq<string>, regions: seq<Rect>)
  datatype Analysis = Analysis(category: string, summary: string, confidence: real)
  datatype Confidence = Finite(value: real) | NotFinite
  datatype CloudAnalysis = CloudAnalysis(category: string, summary: string, confidence: Confidence)

  datatype Captured = Captured(data: seq<int>, width: int, height: int, hash: Option<nat>)

  /** What a sanitizer hands back: a new frame, or the one it was given. */
  datatype Sanitized = NewFrame(data: seq<int>) | SameFrame

  datatype Gate =
    | AfterWindow | AfterDecision | BeforeCapture | AfterCapture | AfterOcr | AfterGuard | BeforeCloud | AfterLimiter
    | AfterSanitize | AfterCloud | AtResult

  datatype Inputs = Inputs(
    visionOn: Gate -> bool, cloudOn: Gate -> bool, cloudConfigured: bool,
    window: Reply<string>, decision: Reply<WindowDecision>, capture: Reply<Captured>, maxFrameBytes: nat,
    comparable: bool, committable: bool,   // do the change detector's operations succeed?
    ocr: Reply<seq<Span>>, guard: Option<ContentDecision>, classify: Option<Analysis>,
    redact: string -> Option<string>, limiterAllows: bool, alwaysRedact: seq<Rect>,
    sanitize: Reply<Sanitized>, cloud: Reply<CloudAnalysis>, safeCategory: string -> Option<string>)

  function WindowKey(i: Inputs): string {
    if i.window.Delivered? then i.window.value else ""
  }

  /** What becomes of the change detector. */
  datatype Effect = Keep | Reset | Store(sensitive: bool, checked: bool)

  datatype Decision = Decision(outcome: Outcome, effect: Effect)

  const SENSITIVE: Context := Context("sensitive", "当前屏幕场景已被隐私保护规则拦截。", 1.0, true)

  function Plain(status: Status, reason: string): Decision {
    Decision(Returned(Result(status, None, Some(reason))), Keep)
  }

  const DISABLED: Decision := Decision(Returned(Result(Disabled, None, None)), Reset)
  const CANCELLED: Decision := Decision(Cancelled, Keep)

  // ----- Redaction regions -----

  predicate InFrame(box: Rect, width: int, height: int) {
    box.x >= 0 && box.y >= 0 && box.x + box.width <= width && box.y + box.height <= height
  }

  /** Every span with text has a box within the frame. */
  predicate AllLocated(spans: seq<Span>, width: int, height: int) {
    forall i :: 0 <= i < |spans| && spans[i].text != "" ==>
      spans[i].box.Some? && InFrame(spans[i].box.value, width, height)
  }

  predicate CoversText(regions: seq<Rect>, spans: seq<Span>) {
    forall i :: 0 <= i < |spans| && spans[i].text != "" ==> spans[i].box.Some? && spans[i].box.value in regions
  }

  /** `_ocr_redaction_regions` */
  method OcrRedactionRegions(spans: seq<Span>, width: int, height: int) returns (regions: Option<seq<Rect>>)
    ensures regions.Some? <==> AllLocated(spans, width, height)
    ensures regions.Some? ==> CoversText(regions.value, spans)
    ensures regions.Some? ==> forall box :: box in regions.value ==>
      exists i :: 0 <= i < |spans| && spans[i].text != "" && spans[i].box == Some(box)
    ensures regions.Some? ==> forall i, j :: 0 <= i < j < |regions.value| ==> regions.value[i] != regions.value[j]
  {
    var boxes: seq<Rect> := [];
    for k := 0 to |spans|
      invariant AllLocated(spans[..k], width, height) && CoversText(boxes, spans[..k])
      invariant forall box :: box in boxes ==>
        exists i :: 0 <= i < |spans| && spans[i].text != "" && spans[i].box == Some(box)
      invariant forall i, j :: 0 <= i < j < |boxes| ==> boxes[i] != boxes[j]
    {
      assert forall i :: 0 <= i < k + 1 ==> spans[..k + 1][i] == spans[i];
      assert forall i :: 0 <= i < k ==> spans[..k][i] == spans[i];
      var span := spans[k];
      if span.text == "" {
        continue;
      }
      if span.box.None? || !InFrame(span.box.value, width, height) {
        assert spans[k].text != "";
        return None;
      }
      if span.box.value !in boxes {
        boxes := boxes + [span.box.value];
      }
    }
    assert spans[..|spans|] == spans;
    return Some(boxes);
  }

  // ----- The decisions, stage by stage -----

  /** Up to the capture: None means go on. */
  function PreCapture(i: Inputs): Option<Decision> {
    if i.window.Interrupted? then Some(CANCELLED)
    else if i.window.Failed? then Some(Plain(GuardError, "pre_capture_guard_failed"))
    else if !i.visionOn(AfterWindow) then Some(DISABLED)
    else if i.decision.Interrupted? then Some(CANCELLED)
    else if i.decision.Failed? then Some(Plain(GuardError, "pre_capture_guard_failed"))
    else if !i.visionOn(AfterDecision) then Some(DISABLED)
    else if i.decision.value.block then
      Some(Decision(Returned(Result(BlockedBeforeCapture, Some(SENSITIVE), Some(i.decision.value.reason))), Keep))
    else if !i.visionOn(BeforeCapture) then Some(DISABLED)
    else None
  }

  /** Capture and comparison; `changed` and `previous` are what the detector says of the captured frame. */
  function Screening(i: Inputs, changed: bool, previous: bool): Option<Decision> {
    if i.capture.Interrupted? then Some(CANCELLED)
    else if i.capture.Failed? then Some(Plain(CaptureError, "capture_failed"))
    else if !i.visionOn(AfterCapture) then Some(DISABLED)
    else if |i.capture.value.data| > i.maxFrameBytes then Some(Plain(CaptureError, "capture_failed"))
    else if !i.comparable || (!changed && !i.committable) then Some(Plain(ProcessingError, "change_detection_failed"))
    else if !changed then
      Some(Decision(Returned(Result(Unchanged, if previous then Some(SENSITIVE) else None,
                                    if previous then Some("sticky_sensitive_context") else None)),
                    Store(previous, false)))
    else None
  }

  /** Text recognition, content guard and local classification. */
  function LocalStage(i: Inputs): Option<Decision> {
    if i.ocr.Interrupted? then Some(CANCELLED)
    else if i.ocr.Failed? then Some(Plain(OcrError, "ocr_failed"))
    else if !i.visionOn(AfterOcr) then Some(DISABLED)
    else if i.guard.None? then Some(Plain(GuardError, "content_guard_failed"))
    else if i.guard.value.block then
      var reason := if i.guard.value.reasons != [] then i.guard.value.reasons[0] else "sensitive_content";
      Some(Decision(Returned(Result(BlockedAfterOcr, Some(SENSITIVE), Some(reason))),
                    if i.committable then Store(true, true) else Keep))
    else if !i.visionOn(AfterGuard) then Some(DISABLED)
    else if i.classify.None? || i.redact(i.classify.value.summary).None? then
      Some(Plain(ProcessingError, "scene_classification_failed"))
    else None
  }

  function LocalContext(i: Inputs): Context
    requires i.classify.Some? && i.redact(i.classify.value.summary).Some?
  {
    var local := i.classify.value;
    Context(local.category, i.redact(local.summary).value, local.confidence, false)
  }

  /** `_safe_result` */
  function Safe(i: Inputs, status: Status, context: Context, reason: Option<string>): Decision {
    if !i.visionOn(AtResult) then DISABLED
    else if !i.committable then Plain(ProcessingError, "change_commit_failed")
    else Decision(Returned(Result(status, Some(context), reason)), Store(false, true))
  }

  function Clamped(x: real): real {
    if x < 0.0 then 0.0 else if x > 1.0 then 1.0 else x
  }

  /** Is the frame sent to the cloud at all?  None means it is. */
  function BeforeSending(i: Inputs, local: Context): Option<Decision>
    requires i.capture.Delivered? && i.ocr.Delivered?
  {
    if !i.cloudConfigured || !i.cloudOn(BeforeCloud) then Some(Safe(i, AnalyzedLocal, local, None))
    else if !AllLocated(i.ocr.value, i.capture.value.width, i.capture.value.height) then
      Some(Safe(i, AnalyzedLocal, local, Some("cloud_ocr_redaction_unavailable")))
    else if !i.limiterAllows then Some(Safe(i, CloudRateLimited, local, None))
    else if !i.visionOn(AfterLimiter) then Some(DISABLED)
    else if !i.cloudOn(AfterLimiter) then Some(Safe(i, AnalyzedLocal, local, None))
    else if i.sanitize.Interrupted? then Some(CANCELLED)
    else if i.sanitize.Failed? || i.sanitize.value.SameFrame? then
      Some(Safe(i, AnalyzedLocal, local, Some("cloud_redaction_failed")))
    else if !i.visionOn(AfterSanitize) then Some(DISABLED)
    else if !i.cloudOn(AfterSanitize) then Some(Safe(i, AnalyzedLocal, local, None))
    else None
  }

  function AfterSending(i: Inputs, local: Context): Decision {
    if i.cloud.Interrupted? then CANCELLED
    else if i.cloud.Failed? then Plain(CloudError, "cloud_processing_failed")
    else if !i.visionOn(AfterCloud) then DISABLED
    else if !i.cloudOn(AfterCloud) then Safe(i, AnalyzedLocal, local, None)
    else if i.cloud.value.confidence.NotFinite? || i.redact(i.cloud.value.summary).None? then
      Plain(CloudError, "cloud_processing_failed")
    else
      var category := i.safeCategory(i.cloud.value.category);
      Safe(i, AnalyzedCloud,
           Context(if category.Some? then category.value else local.category, i.redact(i.cloud.value.summary).value,
                   Clamped(i.cloud.value.confidence.value), false),
           None)
  }

  /** The whole observation. */
  function Decide(i: Inputs, changed: bool, previous: bool): Decision {
    if PreCapture(i).Some? then PreCapture(i).value
    else if Screening(i, changed, previous).Some? then Screening(i, changed, previous).value
    else if LocalStage(i).Some? then LocalStage(i).value
    else if BeforeSending(i, LocalContext(i)).Some? then BeforeSending(i, LocalContext(i)).value
    else AfterSending(i, LocalContext(i))
  }

  // ----- Fail closed -----

  predicate Reports(d: Decision, sensitive: bool) {
    d.outcome.Returned? && d.outcome.result.context.Some? && d.outcome.result.context.value.sensitive == sensitive
  }

  /** The frame was read by OCR and passed the content guard. */
  predicate Passed(i: Inputs) {
    i.capture.Delivered? && i.ocr.Delivered? && i.guard.Some? && !i.guard.value.block
  }

  /** A context that is not sensitive is returned only for a changed frame that passed OCR and content guard
      in this observation, whose summary went through the redactor, and whose commit records that it is clear. */
  lemma ClearOnlyAfterChecks(i: Inputs, changed: bool, previous: bool)
    requires Reports(Decide(i, changed, previous), false)
    ensures changed && Passed(i) && Decide(i, changed, previous).effect == Store(false, true)
    ensures exists raw: string :: i.redact(raw) == Some(Decide(i, changed, previous).outcome.result.context.value.summary)
    ensures i.visionOn(AtResult) && i.visionOn(AfterOcr) && i.visionOn(AfterGuard)
  {
    assert i.redact(i.classify.value.summary) == Some(LocalContext(i).summary);
    if BeforeSending(i, LocalContext(i)).None? && i.cloud.Delivered? {
      assert i.redact(i.cloud.value.summary).Some? ==>
          i.redact(i.cloud.value.summary) == Some(i.redact(i.cloud.value.summary).value);
    }
  }

  /** The detector is told that a window is clear only by a checked frame or by an unchanged one whose
      window was clear before; a sensitive verdict is reported as such. */
  lemma StoredVerdicts(i: Inputs, changed: bool, previous: bool)
    ensures var d := Decide(i, changed, previous);
            match d.effect
            case Store(sensitive, true) => changed && i.ocr.Delivered? && i.guard.Some? && i.guard.value.block == sensitive
                                           && Reports(d, sensitive)
            case Store(sensitive, false) => !changed && sensitive == previous && (previous ==> Reports(d, true))
                                            && (!previous ==> d.outcome.result.context.None?)
            case Keep => !Reports(d, false)
            case Reset => d == DISABLED
  {
  }

  /** An observation ends as disabled exactly when it resets the detector, which takes a closed vision gate. */
  lemma DisabledResets(i: Inputs, changed: bool, previous: bool)
    ensures var d := Decide(i, changed, previous);
            d.effect == Reset <==> d.outcome.Returned? && d.outcome.result.status == Disabled
  {
  }

  lemma EnabledNeverResets(i: Inputs, changed: bool, previous: bool)
    requires forall g :: i.visionOn(g)
    ensures Decide(i, changed, previous).effect != Reset
  {
  }

  /** Is a frame handed to the cloud? */
  predicate Sends(i: Inputs, changed: bool, previous: bool) {
    && PreCapture(i).None? && Screening(i, changed, previous).None? && LocalStage(i).None?
    && BeforeSending(i, LocalContext(i)).None?
  }

  /** Nothing is sent unless both features are on before and after sanitizing, the content guard has passed the
      frame, every span of text is located in it, and the sanitizer has made a new frame. */
  lemma SendsOnlyWhenSafe(i: Inputs, changed: bool, previous: bool)
    requires Sends(i, changed, previous)
    ensures Passed(i) && i.cloudConfigured && i.limiterAllows
    ensures AllLocated(i.ocr.value, i.capture.value.width, i.capture.value.height)
    ensures i.visionOn(AfterSanitize) && i.cloudOn(AfterSanitize) && i.visionOn(AfterLimiter) && i.cloudOn(BeforeCloud)
    ensures i.sanitize.Delivered? && i.sanitize.value.NewFrame?
  {
  }

  /** `share` is the number from 0 to 1 nearest to `x`. */
  predicate IsNearestShare(share: real, x: real) {
    0.0 <= share <= 1.0 && (0.0 <= x <= 1.0 ==> share == x) && (x < 0.0 ==> share == 0.0) && (x > 1.0 ==> share == 1.0)
  }

  /** When everything works the result of a changed frame is the cloud's, and of an unchanged one its old verdict. */
  lemma WorksWhenAllIsWell(i: Inputs, changed: bool, previous: bool)
    requires (forall g :: i.visionOn(g)) && (forall g :: i.cloudOn(g)) && (forall s :: i.redact(s).Some?)
    requires i.window.Delivered? && i.decision.Delivered? && !i.decision.value.block && i.capture.Delivered?
    requires |i.capture.value.data| <= i.maxFrameBytes && i.comparable && i.committable && i.limiterAllows
    requires Passed(i) && i.classify.Some? && i.cloudConfigured && i.sanitize.Delivered? && i.sanitize.value.NewFrame?
    requires i.cloud.Delivered? && i.cloud.value.confidence.Finite?
    requires AllLocated(i.ocr.value, i.capture.value.width, i.capture.value.height)
    ensures var d := Decide(i, changed, previous);
            if changed then
              && Reports(d, false) && d.outcome.result.status == AnalyzedCloud
              && var context, answer := d.outcome.result.context.value, i.cloud.value;
                 && (i.safeCategory(answer.category).Some? ==> context.category == i.safeCategory(answer.category).value)
                 && (i.safeCategory(answer.category).None? ==> context.category == i.classify.value.category)
                 && Some(context.summary) == i.redact(answer.summary)
                 && IsNearestShare(context.confidence, answer.confidence.value)
            else d.outcome.Returned? && d.outcome.result.status == Unchanged && (Reports(d, true) <==> previous)
  {
  }

  /** Everything up to the local classification of a changed frame has worked, and its outcome can be stored. */
  predicate LocallyDone(i: Inputs) {
    && (forall g :: i.visionOn(g)) && i.window.Delivered? && i.decision.Delivered? && !i.decision.value.block
    && i.capture.Delivered? && |i.capture.value.data| <= i.maxFrameBytes && i.comparable && i.committable
    && Passed(i) && i.classify.Some? && i.redact(i.classify.value.summary).Some?
  }

  /** The local classification as the result, stored as clear. */
  function Local(i: Inputs, status: Status, reason: Option<string>): Decision
    requires LocallyDone(i)
  {
    var scene := i.classify.value;
    Decision(
      Returned(Result(
        status, Some(Context(scene.category, i.redact(scene.summary).value, scene.confidence, false)), reason)),
      Store(false, true))
  }

  /** Without a configured or enabled cloud a checked frame yields the local context; so it does, with the
      reason, when text cannot be located, the limiter refuses, or the frame cannot be redacted. */
  lemma LocalFallback(i: Inputs, previous: bool)
    requires LocallyDone(i)
    ensures var d := Decide(i, true, previous);
            var enabled := i.cloudConfigured && forall g :: i.cloudOn(g);
            var located := AllLocated(i.ocr.value, i.capture.value.width, i.capture.value.height);
            && (!i.cloudConfigured || !i.cloudOn(BeforeCloud) ==> d == Local(i, AnalyzedLocal, None))
            && (enabled && !located ==> d == Local(i, AnalyzedLocal, Some("cloud_ocr_redaction_unavailable")))
            && (enabled && located && !i.limiterAllows ==> d == Local(i, CloudRateLimited, None))
            && (enabled && located && i.limiterAllows && (i.sanitize.Failed? || i.sanitize == Delivered(SameFrame)) ==>
                  d == Local(i, AnalyzedLocal, Some("cloud_redaction_failed")))
            && (Sends(i, true, previous) && i.cloud.Failed? ==> d == Plain(CloudError, "cloud_processing_failed"))
  {
    assert Screening(i, true, previous).None? && PreCapture(i).None? && LocalStage(i).None?;
  }

  /** A cloud gate that closes while the frame is on its way leaves the local context too. */
  lemma CloudClosedLater(i: Inputs, previous: bool)
    requires LocallyDone(i) && i.cloudConfigured && i.cloudOn(BeforeCloud) && i.limiterAllows
    requires AllLocated(i.ocr.value, i.capture.value.width, i.capture.value.height)
    requires i.sanitize.Delivered? && i.sanitize.value.NewFrame? && i.cloud.Delivered?
    requires !i.cloudOn(AfterLimiter) || !i.cloudOn(AfterSanitize) || !i.cloudOn(AfterCloud)
    ensures Decide(i, true, previous) == Local(i, AnalyzedLocal, None)
  {
    assert Screening(i, true, previous).None? && PreCapture(i).None? && LocalStage(i).None?;
  }

  /** With the feature on, the first thing that goes wrong names the result, and nothing is stored for it; what
      the guards block is reported as sensitive, and stored so once the text has been read. */
  lemma FailuresAreNamed(i: Inputs, changed: bool, previous: bool)
    requires (forall g :: i.visionOn(g)) && !i.window.Interrupted? && !i.decision.Interrupted?
    requires !i.capture.Interrupted? && !i.ocr.Interrupted?
    ensures var d := Decide(i, changed, previous);
            if i.window.Failed? || i.decision.Failed? then d == Plain(GuardError, "pre_capture_guard_failed")
            else if i.decision.value.block then
              d == Decision(Returned(Result(BlockedBeforeCapture, Some(SENSITIVE), Some(i.decision.value.reason))), Keep)
            else if i.capture.Failed? || |i.capture.value.data| > i.maxFrameBytes then
              d == Plain(CaptureError, "capture_failed")
            else if !i.comparable then d == Plain(ProcessingError, "change_detection_failed")
            else if changed && i.ocr.Failed? then d == Plain(OcrError, "ocr_failed")
            else if changed && i.guard.None? then d == Plain(GuardError, "content_guard_failed")
            else if changed && i.guard.value.block then
              && d.outcome.Returned? && d.outcome.result.status == BlockedAfterOcr && Reports(d, true)
              && d.effect == (if i.committable then Store(true, true) else Keep)
            else if changed && (i.classify.None? || i.redact(i.classify.value.summary).None?) then
              d == Plain(ProcessingError, "scene_classification_failed")
            else true
  {
  }
}
