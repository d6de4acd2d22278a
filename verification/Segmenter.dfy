/** `DialogueSegmenter` of app/pipelines/segmenter.py: a mutable buffer cut by scanning loops. */
module Segmenter {
  import opened Options
  import opened Segmentation
  import Rules = SegmentationRules

  datatype DialogueSegment = DialogueSegment(turnId: string, index: nat, text: string)

  /** The segments made from `texts` when the next free index is `first`. */
  function Numbered(turnId: string, first: nat, texts: seq<string>): (segments: seq<DialogueSegment>)
    ensures |segments| == |texts|
  {
    if texts == [] then []
    else
      var last := |texts| - 1;
      Numbered(turnId, first, texts[..last]) + [DialogueSegment(turnId, first + last, texts[last])]
  }

  lemma {:induction false} NumberedIndex(turnId: string, first: nat, texts: seq<string>, i: nat)
    requires i < |texts|
    ensures Numbered(turnId, first, texts)[i] == DialogueSegment(turnId, first + i, texts[i])
  {
    if i < |texts| - 1 {
      NumberedIndex(turnId, first, texts[..|texts| - 1], i);
    }
  }

  lemma NumberedNone(turnId: string, first: nat)
    ensures Numbered(turnId, first, []) == []
  {
  }

  lemma NumberedAppend(turnId: string, first: nat, texts: seq<string>, text: string)
    ensures Numbered(turnId, first, texts + [text])
         == Numbered(turnId, first, texts) + [DialogueSegment(turnId, first + |texts|, text)]
  {
    assert (texts + [text])[..|texts|] == texts;
  }

  class DialogueSegmenter {
    const turnId: string
    const settings: Settings
    var buffer: string
    var nextIndex: nat
    ghost var fed: string          // all text given to Feed so far
    ghost var spoken: seq<string>  // all texts returned so far

    ghost predicate Valid()
      reads this
    {
      && settings.Valid()
      && nextIndex == |spoken|
      && settings.Covers(fed, spoken, buffer)
      && settings.Quiescent(buffer)
    }

    constructor Init(turnId: string, settings: Settings)
      requires settings.Valid()
      ensures Valid() && fed == "" && spoken == [] && buffer == "" && nextIndex == 0
      ensures this.turnId == turnId && this.settings == settings
    {
      this.turnId, this.settings := turnId, settings;
      buffer, nextIndex, fed, spoken := "", 0, "", [];
      settings.CoversNothing("");
    }

    /** The source's constructor, which raises ValueError on unusable limits: null stands for that. */
    static method Create(turnId: string, settings: Settings) returns (segmenter: DialogueSegmenter?)
      ensures segmenter == null <==> settings.minChars < 1 || settings.maxChars < settings.minChars || settings.maxWords < 1
      ensures segmenter != null ==>
                && fresh(segmenter) && segmenter.Valid() && segmenter.spoken == [] && segmenter.fed == ""
                && segmenter.turnId == turnId && segmenter.settings == settings
    {
      if settings.minChars < 1 || settings.maxChars < settings.minChars || settings.maxWords < 1 {
        return null;
      }
      segmenter := new DialogueSegmenter.Init(turnId, settings);
    }

    /** Emits what the new text completes.  Nothing is lost, indices go on, the buffer is quiescent again. */
    method Feed(delta: string) returns (segments: seq<DialogueSegment>)
      requires Valid()
      modifies this
      ensures Valid()
      ensures fed == old(fed) + delta
      ensures segments == Numbered(turnId, |old(spoken)|, settings.Feed(old(buffer), delta).0)
      ensures spoken == old(spoken) + settings.Feed(old(buffer), delta).0
      ensures buffer == settings.Feed(old(buffer), delta).1
      ensures settings.GoodPieces(settings.Feed(old(buffer), delta).0, settings.maxChars + |delta|)
      ensures Rules.NoSentenceBefore(settings, buffer, |buffer|, false) && !Rules.TooLong(settings, buffer)
    {
      hide Rules.NoSentenceBefore, Rules.TooLong;
      Rules.QuiescentRule(settings, settings.Feed(buffer, delta).1);
      settings.FeedResult(buffer, delta);
      settings.CoversChain(fed, spoken, buffer, delta,
                           settings.Feed(buffer, delta).0, settings.Feed(buffer, delta).1);
      ghost var texts := settings.Feed(buffer, delta).0;
      fed := fed + delta;
      if delta == "" {
        assert spoken + texts == spoken;
        return [];
      }
      buffer := buffer + delta;
      segments := Drain(false);
      spoken := spoken + texts;
    }

    /** Ends the reply: all remaining text is spoken and the buffer is empty. */
    method Flush() returns (segments: seq<DialogueSegment>)
      requires Valid()
      modifies this
      ensures Valid() && buffer == "" && fed == old(fed)
      ensures segments == Numbered(turnId, |old(spoken)|, settings.Flush(old(buffer)))
      ensures spoken == old(spoken) + settings.Flush(old(buffer))
      ensures settings.Covers(fed, spoken, "")
      ensures settings.GoodPieces(settings.Flush(old(buffer)), settings.maxChars)
    {
      hide Settings.Drain, Settings.Strip, Settings.Covers, Settings.GoodPieces, Settings.Quiescent, Numbered;
      FlushKeepsAll();
      ghost var drained, texts := settings.Drain(buffer, true).0, settings.Flush(buffer);
      segments := Drain(true);
      var remainder := settings.Strip(buffer);
      buffer := "";
      if remainder != "" {
        var segment := MakeSegment(remainder);
        NumberedAppend(turnId, old(nextIndex), drained, remainder);
        segments := segments + [segment];
      } else {
        assert drained + Spoken(remainder) == drained;
      }
      spoken := spoken + texts;
    }

    lemma FlushKeepsAll()
      requires Valid()
      ensures settings.Covers(fed, spoken + settings.Flush(buffer), "")
      ensures settings.GoodPieces(settings.Flush(buffer), settings.maxChars)
      ensures settings.Quiescent("")
    {
      settings.FlushCovers(buffer);
      settings.FlushPieces(buffer);
      assert buffer + "" == buffer && fed + "" == fed;
      settings.CoversChain(fed, spoken, buffer, "", settings.Flush(buffer), "");
    }

    method Drain(final: bool) returns (segments: seq<DialogueSegment>)
      requires settings.Valid()
      modifies this`buffer, this`nextIndex
      ensures segments == Numbered(turnId, old(nextIndex), settings.Drain(old(buffer), final).0)
      ensures buffer == settings.Drain(old(buffer), final).1
      ensures nextIndex == old(nextIndex) + |segments|
    {
      hide Settings.Drain, Settings.NextCut, Settings.Strip, Settings.LStrip, Numbered;
      segments := [];
      ghost var texts: seq<string> := [];
      NumberedNone(turnId, nextIndex);
      while buffer != ""
        invariant segments == Numbered(turnId, old(nextIndex), texts)
        invariant nextIndex == old(nextIndex) + |texts|
        invariant settings.Drain(old(buffer), final).0 == texts + settings.Drain(buffer, final).0
        invariant settings.Drain(old(buffer), final).1 == settings.Drain(buffer, final).1
        decreases |buffer|
      {
        var cut := NextCut(final);
        if cut.None? {
          settings.DrainStops(buffer, final);
          break;
        }
        settings.DrainStep(texts, buffer, final);
        var candidate := settings.Strip(buffer[..cut.value]);
        buffer := settings.LStrip(buffer[cut.value..]);
        if candidate != "" {
          var segment := MakeSegment(candidate);
          NumberedAppend(turnId, old(nextIndex), texts, candidate);
          segments, texts := segments + [segment], texts + [candidate];
        } else {
          assert texts + Spoken(candidate) == texts;
        }
      }
      if buffer == "" {
        settings.DrainStops(buffer, final);
      }
      assert texts + [] == texts;
    }

    /** One turn of the source's drain loop: an emittable sentence is preferred to a forced cut. */
    method NextCut(final: bool) returns (cut: Option<nat>)
      requires settings.Valid()
      ensures cut == settings.NextCut(buffer, final)
      ensures Rules.IsNextCut(settings, buffer, final, cut)
    {
      hide Rules.IsNextCut;
      Rules.NextCutRule(settings, buffer, final);
      var boundary := SentenceBoundary(final);
      settings.BoundaryInRange(buffer, 0, final);
      if boundary.Some? {
        var candidate := settings.Strip(buffer[..boundary.value]);
        if settings.CanEmit(candidate) {
          return boundary;
        }
      }
      cut := ForcedBoundary();
    }

    method SentenceBoundary(final: bool) returns (boundary: Option<nat>)
      ensures boundary == settings.SentenceBoundary(buffer, final)
    {
      for index := 0 to |buffer|
        invariant settings.SentenceBoundary(buffer, final) == settings.BoundaryFrom(buffer, index, final)
      {
        var isBoundary := IsTerminal(index, final);
        if !isBoundary {
          continue;
        }
        var end := PastClosers(index + 1);
        if settings.CanEmit(settings.Strip(buffer[..end])) {
          return Some(end);
        }
      }
      return None;
    }

    method IsTerminal(index: nat, final: bool) returns (isBoundary: bool)
      requires index < |buffer|
      ensures isBoundary == settings.Terminal(buffer, index, final)
      ensures isBoundary <==> Rules.EndsHere(settings, buffer, index, final)
    {
      hide Rules.EndsHere;
      Rules.TerminalRule(settings, buffer, index, final);
      var character := buffer[index];
      isBoundary := character in HARD_TERMINATORS;
      if character == '.' {
        isBoundary := PeriodIsTerminal(index, final);
      } else if character == '…' {
        isBoundary := EllipsisIsTerminal(index, final);
      }
    }

    method PastClosers(index: nat) returns (end: nat)
      requires index <= |buffer|
      ensures end == SkipWhile(buffer, CLOSERS, index)
    {
      end := index;
      while end < |buffer| && buffer[end] in CLOSERS
        invariant end <= |buffer|
        invariant SkipWhile(buffer, CLOSERS, end) == SkipWhile(buffer, CLOSERS, index)
      {
        end := end + 1;
      }
    }

    method PeriodIsTerminal(index: nat, final: bool) returns (terminal: bool)
      requires index < |buffer|
      ensures terminal == settings.PeriodIsTerminal(buffer, index, final)
      ensures buffer[index] == '.' ==> (terminal <==> Rules.PeriodEnds(settings, buffer, index, final))
    {
      hide Rules.PeriodEnds;
      if buffer[index] == '.' {
        Rules.PeriodRule(settings, buffer, index, final);
      }
      var before := if index > 0 then [buffer[index - 1]] else "";
      var after := if index + 1 < |buffer| then [buffer[index + 1]] else "";
      if before == "." || after == "." {
        var runStart, runEnd := Run('.', index);
        return runEnd - runStart >= 3 && index == runEnd - 1;
      }
      if before != "" && settings.digit(before[0]) && after != "" && settings.digit(after[0]) {
        return false;
      }
      var prefix := AnchoredEnd(buffer[..index]);
      var word := TrailingLetters(prefix);
      if word != "" && AsciiLower(word) in ABBREVIATIONS {
        return false;
      }
      if EndsInInitials(settings.word, prefix) {
        return false;
      }
      if |word| == 1 && AsciiUpper(word[0]) {
        return false;
      }
      return after != "" || final;
    }

    method EllipsisIsTerminal(index: nat, final: bool) returns (terminal: bool)
      requires index < |buffer|
      ensures terminal == settings.EllipsisIsTerminal(buffer, index, final)
      ensures buffer[index] == '…' ==>
                (terminal <==> !Rules.IsAt(buffer, index + 1, '…') && (Rules.IsAt(buffer, index - 1, '…') || final))
    {
      if buffer[index] == '…' {
        Rules.EllipsisRule(settings, buffer, index, final);
      }
      var runStart, runEnd := Run('…', index);
      var runLength := runEnd - runStart;
      return index == runEnd - 1 && (runLength >= 2 || final);
    }

    /** The two loops the source repeats: the run of `mark` around `index`. */
    method Run(mark: char, index: nat) returns (start: nat, end: nat)
      requires index < |buffer|
      ensures start == RunStart(buffer, mark, index) && end == SkipWhile(buffer, [mark], index + 1)
    {
      start := index;
      while start > 0 && buffer[start - 1] == mark
        invariant start <= index && RunStart(buffer, mark, start) == RunStart(buffer, mark, index)
      {
        start := start - 1;
      }
      end := index + 1;
      while end < |buffer| && buffer[end] == mark
        invariant end <= |buffer| && SkipWhile(buffer, [mark], end) == SkipWhile(buffer, [mark], index + 1)
      {
        end := end + 1;
      }
    }

    method ForcedBoundary() returns (boundary: Option<nat>)
      requires settings.Valid()
      ensures boundary == settings.ForcedBoundary(buffer)
      ensures Rules.IsForcedCut(settings, buffer, boundary)
    {
      hide Rules.IsForcedCut;
      Rules.ForcedRule(settings, buffer);
      var words := WordEnds(buffer, 0);
      var wordBoundary: Option<nat> := None;
      if |words| > settings.maxWords {
        wordBoundary := Some(words[settings.maxWords - 1]);
      }
      if |buffer| <= settings.maxChars && wordBoundary.None? {
        return None;
      }
      var limit: nat := settings.maxChars;
      if wordBoundary.Some? && wordBoundary.value < limit {
        limit := wordBoundary.value;
      }
      var minimum: nat := if settings.minChars < limit then settings.minChars else limit;
      var weak := BreakWithin(WEAK_BREAKS, limit, minimum);
      if weak.Some? {
        return weak;
      }
      var blank := BreakWithin(BLANK_BREAKS, limit, minimum);
      if blank.Some? {
        return blank;
      }
      return Some(limit);
    }

    /** The last usable separator, as the source's forward listing of positions finds it. */
    method BreakWithin(separators: string, limit: nat, minimum: nat) returns (position: Option<nat>)
      requires limit <= |buffer|
      ensures position == LastBreak(buffer, separators, limit, minimum)
    {
      position := None;
      for index := 0 to limit
        invariant position == LastBreak(buffer, separators, index, minimum)
      {
        if buffer[index] in separators && index + 1 >= minimum {
          position := Some(index + 1);
        }
      }
    }

    method MakeSegment(text: string) returns (segment: DialogueSegment)
      modifies this`nextIndex
      ensures segment == DialogueSegment(turnId, old(nextIndex), text)
      ensures nextIndex == old(nextIndex) + 1
    {
      segment := DialogueSegment(turnId, nextIndex, text);
      nextIndex := nextIndex + 1;
    }
  }
}
