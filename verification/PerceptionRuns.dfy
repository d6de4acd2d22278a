/** Sequences of observations: what is remembered of a window is what the content guard said of it last. */
module PerceptionRuns {
  import opened Options
  import opened ChangeDetection
  import opened Perception

  /** One observation with the detector's answers, or a reset by the feature switch between observations.
      `resetMeanwhile`: another task resets the detector while this observation waits for an adapter. */
  datatype Happening =
    | Observation(inputs: Inputs, changed: bool, previous: bool, resetMeanwhile: bool)
    | FeatureReset

  /** How the detector measures frames. */
  datatype Measure = Measure(minimumDistance: real, digestOf: seq<int> -> nat)

  /** What the detector keeps of the captured frame. */
  function MarkOf(m: Measure, i: Inputs): Mark
    requires i.capture.Delivered?
  {
    Mark(i.capture.value.hash, m.digestOf(i.capture.value.data))
  }

  /** The detector's answers on a captured frame fit what has been committed: it counts as changed exactly when
      the window committed last was another one or its frame is told apart, and an unchanged frame comes with the
      verdict known for its window. */
  ghost predicate Fits(m: Measure, history: seq<Committed>, h: Happening) {
    h.Observation? && h.inputs.capture.Delivered? ==>
      var key := WindowKey(h.inputs);
      && (h.changed <==> CountsAsChanged(m.minimumDistance, history, key, MarkOf(m, h.inputs)))
      && (!h.changed ==> Verdict(history, key) == Some(h.previous))
  }

  function Decided(h: Happening): Decision
    requires h.Observation?
  {
    Decide(h.inputs, h.changed, h.previous)
  }

  lemma StoresCaptured(h: Happening)
    requires h.Observation? && Decided(h).effect.Store?
    ensures h.inputs.capture.Delivered?
  {
  }

  /** An observation of an unchanged frame commits before it waits again. */
  function Next(m: Measure, history: seq<Committed>, h: Happening): seq<Committed> {
    if h.FeatureReset? then []
    else
      var base := if h.resetMeanwhile && h.changed then [] else history;
      match Decided(h).effect
      case Keep => base
      case Reset => []
      case Store(sensitive, checked) =>
        StoresCaptured(h);
        base + [Committed(WindowKey(h.inputs), MarkOf(m, h.inputs), sensitive, checked)]
  }

  /** What is committed after `log`, since the last reset in it. */
  function History(m: Measure, log: seq<Happening>): seq<Committed> {
    if log == [] then [] else Next(m, History(m, log[..|log| - 1]), log[|log| - 1])
  }

  ghost predicate IsLog(m: Measure, log: seq<Happening>) {
    forall j :: 0 <= j < |log| ==> Fits(m, History(m, log[..j]), log[j])
  }

  /** This observation read the text of a frame of `key`, and the guard's verdict on it was `sensitive`. */
  predicate Judged(h: Happening, key: Key, sensitive: bool) {
    && h.Observation? && WindowKey(h.inputs) == key && h.changed
    && h.inputs.capture.Delivered? && h.inputs.ocr.Delivered?
    && h.inputs.guard.Some? && h.inputs.guard.value.block == sensitive
  }

  lemma PrefixIsLog(m: Measure, log: seq<Happening>)
    requires IsLog(m, log) && log != []
    ensures IsLog(m, log[..|log| - 1])
  {
    var before := log[..|log| - 1];
    forall j | 0 <= j < |before| ensures Fits(m, History(m, before[..j]), before[j]) {
      assert before[..j] == log[..j];
    }
  }

  lemma StoredIsJudged(h: Happening)
    requires h.Observation? && Decided(h).effect.Store? && Decided(h).effect.checked
    ensures Judged(h, WindowKey(h.inputs), Decided(h).effect.sensitive)
  {
    StoredVerdicts(h.inputs, h.changed, h.previous);
  }

  /** Every checked commit comes from an observation that judged a frame of that window. */
  lemma {:induction false} CommitsAreJudged(m: Measure, log: seq<Happening>, p: nat)
    requires p < |History(m, log)| && History(m, log)[p].checked
    ensures exists k :: 0 <= k < |log| && Judged(log[k], History(m, log)[p].key, History(m, log)[p].sensitive)
  {
    var before, last := log[..|log| - 1], log[|log| - 1];
    if p < |History(m, before)| && History(m, before)[p] == History(m, log)[p] {
      CommitsAreJudged(m, before, p);
      var k :| 0 <= k < |before| && Judged(before[k], History(m, before)[p].key, History(m, before)[p].sensitive);
      assert log[k] == before[k];
    } else {
      StoredIsJudged(last);
      assert Judged(log[|log| - 1], History(m, log)[p].key, History(m, log)[p].sensitive);
    }
  }

  /** The commit that a window's known verdict comes from. */
  ghost predicate IsLastChecked(history: seq<Committed>, key: Key, p: int) {
    && 0 <= p < |history| && history[p].key == key && history[p].checked
    && forall q :: p < q < |history| && history[q].key == key ==> !history[q].checked
  }

  lemma {:induction false} VerdictIsLastChecked(history: seq<Committed>, key: Key) returns (p: nat)
    requires Verdict(history, key).Some?
    ensures IsLastChecked(history, key, p) && Verdict(history, key) == Some(history[p].sensitive)
  {
    p := |history| - 1;
    if !(history[p].key == key && history[p].checked) {
      var before := history[..p];
      var earlier := VerdictIsLastChecked(before, key);
      forall q | earlier < q < |history| && history[q].key == key ensures !history[q].checked {
        assert q < |before| ==> before[q] == history[q];
      }
      p := earlier;
    }
  }

  /** In every sequence of observations, gate flips, failures and resets, an observation of an unchanged
      frame reports a sensitive scene exactly when the guard's last verdict on the window was to block, and
      that verdict was given on a frame whose text was read. */
  lemma UnchangedRepeatsVerdict(m: Measure, log: seq<Happening>, j: nat) returns (p: nat, k: nat)
    requires IsLog(m, log) && j < |log| && log[j].Observation?
    requires Decided(log[j]).outcome.Returned? && Decided(log[j]).outcome.result.status == Unchanged
    ensures var history, key := History(m, log[..j]), WindowKey(log[j].inputs);
            && IsLastChecked(history, key, p)
            && k < j && Judged(log[k], key, history[p].sensitive)
            && (Reports(Decided(log[j]), true) <==> history[p].sensitive)
            && !Reports(Decided(log[j]), false)
  {
    hide Decided, Reports, CountsAsChanged, IsLastChecked, Judged;
    var before, key := log[..j], WindowKey(log[j].inputs);
    UnchangedMeans(log[j]);
    assert Fits(m, History(m, log[..j]), log[j]);
    p := VerdictIsLastChecked(History(m, before), key);
    CommitsAreJudged(m, before, p);
    k :| 0 <= k < |before| && Judged(before[k], key, History(m, before)[p].sensitive);
  }

  lemma UnchangedMeans(h: Happening)
    requires h.Observation? && Decided(h).outcome.Returned? && Decided(h).outcome.result.status == Unchanged
    ensures !h.changed && h.inputs.capture.Delivered?
    ensures (Reports(Decided(h), true) <==> h.previous) && !Reports(Decided(h), false)
  {
  }

  /** However long a chain of unchanged frames gets, each link stores the verdict of the chain's first frame. */
  lemma {:induction false} ChainsKeepVerdict(m: Measure, log: seq<Happening>)
    requires IsLog(m, log)
    ensures forall p: nat :: p < |History(m, log)| ==> RepeatsVerdict(History(m, log), p)
  {
    if log != [] {
      var before, last := log[..|log| - 1], log[|log| - 1];
      PrefixIsLog(m, log);
      ChainsKeepVerdict(m, before);
      assert Fits(m, History(m, log[..|before|]), log[|before|]);
      NextKeepsVerdict(m, History(m, before), last);
    }
  }

  ghost predicate RepeatsVerdict(history: seq<Committed>, p: nat)
    requires p < |history|
  {
    !history[p].checked ==> Verdict(history[..p], history[p].key) == Some(history[p].sensitive)
  }

  lemma NextKeepsVerdict(m: Measure, past: seq<Committed>, h: Happening)
    requires Fits(m, past, h) && forall p: nat :: p < |past| ==> RepeatsVerdict(past, p)
    ensures forall p: nat :: p < |Next(m, past, h)| ==> RepeatsVerdict(Next(m, past, h), p)
  {
    hide Decide, CountsAsChanged;
    var now := Next(m, past, h);
    NextAdds(m, past, h);
    forall p: nat | p < |now| ensures RepeatsVerdict(now, p) {
      if p < |past| && now[..p + 1] == past[..p + 1] {
        assert RepeatsVerdict(past, p);
        assert now[p] == now[..p + 1][p] && now[..p] == now[..p + 1][..p] && past[..p] == past[..p + 1][..p];
      }
    }
  }

  /** An observation leaves the history, or a fresh one, with at most one commit more; an unchecked one repeats
      the verdict known for its window. */
  lemma NextAdds(m: Measure, past: seq<Committed>, h: Happening)
    requires Fits(m, past, h)
    ensures var now := Next(m, past, h);
            || now == past || now == []
            || (|now| == 1 && now[0].checked)
            || (|now| == |past| + 1 && now[..|past|] == past
                && (!now[|past|].checked ==> Verdict(past, now[|past|].key) == Some(now[|past|].sensitive)))
  {
    hide CountsAsChanged, Decide;
    if h.Observation? {
      StoredVerdicts(h.inputs, h.changed, h.previous);
      if Decided(h).effect.Store? {
        StoresCaptured(h);
      }
    }
  }

  /** Whatever came before, a scene is reported as clear only by an observation that itself judged its frame. */
  lemma ClearNeedsJudgement(h: Happening)
    requires h.Observation? && Reports(Decided(h), false)
    ensures Judged(h, WindowKey(h.inputs), false)
  {
    ClearOnlyAfterChecks(h.inputs, h.changed, h.previous);
  }

  // ----- Which frames end as unchanged -----

  /** The observation gets as far as comparing a frame, and can commit it. */
  predicate Compares(i: Inputs) {
    && PreCapture(i).None? && i.capture.Delivered? && i.visionOn(AfterCapture)
    && |i.capture.value.data| <= i.maxFrameBytes && i.comparable && i.committable
  }

  predicate EndsUnchanged(h: Happening) {
    h.Observation? && Decided(h).outcome.Returned? && Decided(h).outcome.result.status == Unchanged
  }

  lemma UnchangedNeedsComparison(h: Happening)
    requires h.Observation?
    ensures EndsUnchanged(h) <==> Compares(h.inputs) && !h.changed
  {
  }

  /** In every sequence an observation ends as unchanged exactly when it compares its frame, the last commit is
      one of the same window, and its frame is not told apart: by the share of differing bits, or by the digest
      where a hash is missing. */
  lemma UnchangedExactly(m: Measure, log: seq<Happening>, j: nat)
    requires IsLog(m, log) && j < |log| && log[j].Observation?
    ensures var history, i := History(m, log[..j]), log[j].inputs;
            EndsUnchanged(log[j]) <==>
              && Compares(i) && history != [] && history[|history| - 1].key == WindowKey(i)
              && !TellsApart(m.minimumDistance, history[|history| - 1].mark, MarkOf(m, i))
  {
    hide TellsApart, Decided, Compares;
    assert Fits(m, History(m, log[..j]), log[j]);
    UnchangedNeedsComparison(log[j]);
    ComparesCaptured(log[j].inputs);
  }

  lemma ComparesCaptured(i: Inputs)
    ensures Compares(i) ==> i.capture.Delivered?
  {
  }

  /** The same frame again, and nothing committed in between: it ends as unchanged, without being read. */
  lemma SameFrameAgain(m: Measure, log: seq<Happening>, j: nat)
    requires IsLog(m, log) && j < |log| && log[j].Observation? && Compares(log[j].inputs)
    requires var history, i := History(m, log[..j]), log[j].inputs;
             && history != [] && history[|history| - 1].key == WindowKey(i)
             && history[|history| - 1].mark == MarkOf(m, i)
    requires m.minimumDistance > 0.0 || log[j].inputs.capture.value.hash.None?
    ensures EndsUnchanged(log[j])
  {
    hide TellsApart, Compares, EndsUnchanged;
    ComparesCaptured(log[j].inputs);
    UnchangedExactly(m, log, j);
    SameFrameIsSame(m.minimumDistance, MarkOf(m, log[j].inputs));
  }
}
