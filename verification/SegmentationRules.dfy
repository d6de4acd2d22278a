/** Where app/pipelines/segmenter.py cuts, told from the characters of the buffer alone. */
module SegmentationRules {
  import opened Options
  import opened Segmentation

  predicate IsAt(s: string, i: int, c: char) {
    0 <= i < |s| && s[i] == c
  }

  // ----- Scanning -----

  lemma {:induction false} SkipWhileStops(s: string, group: string, index: nat)
    requires index <= |s|
    ensures var end := SkipWhile(s, group, index);
            && (forall k :: index <= k < end ==> s[k] in group)
            && (end < |s| ==> s[end] !in group)
    decreases |s| - index
  {
    if index < |s| && s[index] in group {
      SkipWhileStops(s, group, index + 1);
    }
  }

  lemma {:induction false} RunStartStops(s: string, c: char, index: nat)
    requires index <= |s|
    ensures var start := RunStart(s, c, index);
            && (forall k :: start <= k < index ==> s[k] == c)
            && (start > 0 ==> s[start - 1] != c)
  {
    if index > 0 && s[index - 1] == c {
      RunStartStops(s, c, index - 1);
    }
  }

  lemma {:induction false} TrailingLettersStop(s: string)
    ensures var n := |TrailingLetters(s)|;
            && n <= |s| && TrailingLetters(s) == s[|s| - n..]
            && (forall k :: |s| - n <= k < |s| ==> AsciiLetter(s[k]))
            && (n < |s| ==> !AsciiLetter(s[|s| - n - 1]))
  {
    hide AsciiLetter;
    if s != "" && AsciiLetter(s[|s| - 1]) {
      var before := s[..|s| - 1];
      TrailingLettersStop(before);
      assert TrailingLetters(s) == TrailingLetters(before) + [s[|s| - 1]];
    }
  }

  // ----- Periods -----

  predicate NextToPeriod(s: string, i: nat) {
    IsAt(s, i - 1, '.') || IsAt(s, i + 1, '.')
  }

  /** The last of three or more periods in a row. */
  predicate ClosesDots(s: string, i: nat) {
    IsAt(s, i - 1, '.') && IsAt(s, i - 2, '.') && !IsAt(s, i + 1, '.')
  }

  predicate BetweenDigits(settings: Settings, s: string, i: nat) {
    0 < i < |s| - 1 && settings.digit(s[i - 1]) && settings.digit(s[i + 1])
  }

  /** Where the text in front of `i` ends when one line break there is not counted, as `$` has it. */
  function FrontEnd(s: string, i: nat): (end: nat)
    ensures end <= i
  {
    if IsAt(s, i - 1, '\n') then i - 1 else i
  }

  /** The letters in front of `end`, all of them, spell `name` in either case. */
  predicate Spelled(s: string, end: nat, name: string) {
    && |name| <= end <= |s|
    && (forall k :: end - |name| <= k < end ==> AsciiLetter(s[k]))
    && AsciiLower(s[end - |name|..end]) == name
    && (|name| < end ==> !AsciiLetter(s[end - |name| - 1]))
  }

  predicate AfterAbbreviation(s: string, i: nat) {
    exists name :: name in ABBREVIATIONS && Spelled(s, FrontEnd(s, i), name)
  }

  /** From `start` on letters and periods alternate up to a last letter, and each letter with a period behind
      it opens a word. */
  predicate Initials(settings: Settings, s: string, start: nat, end: nat) {
    && start + 3 <= end <= |s| && (end - start) % 2 == 1
    && forall k: nat :: start <= k < end ==> InitialAt(settings, s, start, end, k)
  }

  predicate InitialAt(settings: Settings, s: string, start: nat, end: nat, k: nat)
    requires start <= k < end <= |s|
  {
    if (k - start) % 2 == 1 then s[k] == '.'
    else AsciiLetter(s[k]) && (0 < k < end - 1 ==> !settings.word(s[k - 1]))
  }

  predicate AfterInitials(settings: Settings, s: string, i: nat) {
    exists start: nat :: start < i && Initials(settings, s, start, FrontEnd(s, i))
  }

  predicate AfterCapital(s: string, i: nat) {
    var end := FrontEnd(s, i);
    0 < end <= |s| && AsciiUpper(s[end - 1]) && (end > 1 ==> !AsciiLetter(s[end - 2]))
  }

  /** Which periods end a sentence. */
  predicate PeriodEnds(settings: Settings, s: string, i: nat, final: bool) {
    if NextToPeriod(s, i) then ClosesDots(s, i)
    else
      && !BetweenDigits(settings, s, i)
      && !AfterAbbreviation(s, i) && !AfterInitials(settings, s, i) && !AfterCapital(s, i)
      && (i + 1 < |s| || final)
  }

  lemma DotsRule(s: string, i: nat)
    requires IsAt(s, i, '.')
    ensures var start, end := RunStart(s, '.', i), SkipWhile(s, ".", i + 1);
            end - start >= 3 && i == end - 1 <==> ClosesDots(s, i)
  {
    RunStartStops(s, '.', i);
    SkipWhileStops(s, ".", i + 1);
  }

  lemma FrontOf(s: string, i: nat)
    requires i <= |s|
    ensures AnchoredEnd(s[..i]) == s[..FrontEnd(s, i)]
  {
  }

  lemma LowerLength(s: string)
    ensures |AsciiLower(s)| == |s|
  {
  }

  /** Only capitals are changed, to the letter 32 code points on. */
  lemma LowerMeans(s: string, k: nat)
    requires k < |s|
    ensures AsciiLower(s)[k] as int == s[k] as int + if 'A' <= s[k] <= 'Z' then 32 else 0
  {
  }

  /** As many characters are the last letters of `s` as are letters in a row up to its end. */
  lemma LettersAreLast(s: string, n: nat)
    requires n <= |s|
    requires forall k :: |s| - n <= k < |s| ==> AsciiLetter(s[k])
    requires n < |s| ==> !AsciiLetter(s[|s| - n - 1])
    ensures TrailingLetters(s) == s[|s| - n..]
  {
    hide TrailingLetters, AsciiLetter;
    TrailingLettersStop(s);
    var m := |TrailingLetters(s)|;
    if n < |s| {
      LetterWithin(s, m, n);
    }
    if m < |s| {
      LetterWithin(s, n, m);
    }
  }

  lemma LetterWithin(s: string, n: nat, k: nat)
    requires n <= |s| && k < |s| && forall i :: |s| - n <= i < |s| ==> AsciiLetter(s[i])
    ensures k < n ==> AsciiLetter(s[|s| - k - 1])
  {
  }

  /** The one name spelled in front of `end` is the run of letters there. */
  lemma SpelledIsLast(s: string, end: nat, name: string)
    requires end <= |s|
    ensures Spelled(s, end, name) <==> AsciiLower(TrailingLetters(s[..end])) == name
  {
    hide TrailingLetters, AsciiLower, AsciiLetter;
    var front := s[..end];
    var last := TrailingLetters(front);
    if Spelled(s, end, name) {
      LettersAreLast(front, |name|);
      assert front[end - |name|..] == s[end - |name|..end];
    }
    if AsciiLower(last) == name {
      LowerLength(last);
      TrailingLettersStop(front);
      assert front[end - |last|..] == s[end - |last|..end];
    }
  }

  lemma AbbreviationRule(s: string, i: nat)
    requires i <= |s|
    ensures var last := TrailingLetters(AnchoredEnd(s[..i]));
            last != "" && AsciiLower(last) in ABBREVIATIONS <==> AfterAbbreviation(s, i)
  {
    hide TrailingLetters, AsciiLower, Spelled;
    FrontOf(s, i);
    var end := FrontEnd(s, i);
    var last := TrailingLetters(s[..end]);
    LowerLength(last);
    SpelledIsLast(s, end, AsciiLower(last));
    forall name | Spelled(s, end, name) ensures name == AsciiLower(last) {
      SpelledIsLast(s, end, name);
    }
  }

  lemma InitialsTail(settings: Settings, s: string, start: nat, end: nat)
    requires Initials(settings, s, start, end)
    ensures AsciiLetter(s[end - 1]) && s[end - 2] == '.' && AsciiLetter(s[end - 3])
    ensures end > 3 ==> !settings.word(s[end - 4])
  {
    assert InitialAt(settings, s, start, end, end - 1);
    assert InitialAt(settings, s, start, end, end - 2);
    assert InitialAt(settings, s, start, end, end - 3);
  }

  lemma InitialsRule(settings: Settings, s: string, i: nat)
    requires i <= |s|
    ensures EndsInInitials(settings.word, AnchoredEnd(s[..i])) <==> AfterInitials(settings, s, i)
  {
    FrontOf(s, i);
    var end := FrontEnd(s, i);
    if EndsInInitials(settings.word, s[..end]) {
      assert Initials(settings, s, end - 3, end);
    }
    if AfterInitials(settings, s, i) {
      var start: nat :| start < i && Initials(settings, s, start, end);
      InitialsTail(settings, s, start, end);
    }
  }

  lemma UpperIsLetter(c: char)
    ensures AsciiUpper(c) ==> AsciiLetter(c)
  {
  }

  lemma CapitalRule(s: string, i: nat)
    requires i <= |s|
    ensures var last := TrailingLetters(AnchoredEnd(s[..i]));
            |last| == 1 && AsciiUpper(last[0]) <==> AfterCapital(s, i)
  {
    hide TrailingLetters, AnchoredEnd, FrontEnd, AsciiLetter, AsciiUpper;
    FrontOf(s, i);
    var front := s[..FrontEnd(s, i)];
    TrailingLettersStop(front);
    if AfterCapital(s, i) {
      UpperIsLetter(front[|front| - 1]);
      LettersAreLast(front, 1);
    }
  }

  /** A period ends a sentence exactly when none of these is against it: a neighbouring period, unless it is the
      last of three or more; digits on both sides; an abbreviation, initials or a single capital in front; the
      streaming edge. */
  lemma PeriodRule(settings: Settings, s: string, i: nat, final: bool)
    requires IsAt(s, i, '.')
    ensures settings.PeriodIsTerminal(s, i, final) <==> PeriodEnds(settings, s, i, final)
  {
    hide RunStart, SkipWhile, AnchoredEnd, TrailingLetters, AsciiLower, EndsInInitials, AfterInitials, AfterAbbreviation;
    hide AfterCapital, ClosesDots, AsciiUpper;
    DotsRule(s, i);
    AbbreviationRule(s, i);
    InitialsRule(settings, s, i);
    CapitalRule(s, i);
  }

  // ----- All terminators -----

  /** Which characters end a sentence: such periods, the last of two or more ellipses or at the end of the reply
      of one, and the terminators of either script. */
  predicate EndsHere(settings: Settings, s: string, i: nat, final: bool) {
    && i < |s|
    && if s[i] == '.' then PeriodEnds(settings, s, i, final)
       else if s[i] == '…' then !IsAt(s, i + 1, '…') && (IsAt(s, i - 1, '…') || final)
       else s[i] in {'。', '！', '？', '!', '?', '；', ';'}
  }

  lemma EllipsisRule(settings: Settings, s: string, i: nat, final: bool)
    requires IsAt(s, i, '…')
    ensures settings.EllipsisIsTerminal(s, i, final) <==> !IsAt(s, i + 1, '…') && (IsAt(s, i - 1, '…') || final)
  {
    RunStartStops(s, '…', i);
    SkipWhileStops(s, "…", i + 1);
  }

  lemma TerminalRule(settings: Settings, s: string, i: nat, final: bool)
    requires i < |s|
    ensures settings.Terminal(s, i, final) <==> EndsHere(settings, s, i, final)
  {
    hide PeriodEnds, Settings.PeriodIsTerminal, Settings.EllipsisIsTerminal;
    if s[i] == '.' {
      PeriodRule(settings, s, i, final);
    } else if s[i] == '…' {
      EllipsisRule(settings, s, i, final);
    }
  }

  // ----- Words -----

  predicate LetterRun(s: string, start: nat, end: nat) {
    && start < end <= |s|
    && (forall k :: start <= k < end ==> AsciiLetter(s[k]))
    && (end < |s| ==> !AsciiLetter(s[end]))
  }

  /** A run of letters, and one apostrophe with the letters behind it. */
  ghost predicate IsWord(s: string, start: nat, end: nat) {
    exists middle: nat :: WordWith(s, start, middle, end)
  }

  predicate WordWith(s: string, start: nat, middle: nat, end: nat) {
    && LetterRun(s, start, middle)
    && if IsAt(s, middle, '\'') && middle + 1 < |s| && AsciiLetter(s[middle + 1]) then LetterRun(s, middle + 1, end)
       else end == middle
  }

  /** The words from `index` on: in order, apart from each other, and with every letter in one of them. */
  ghost predicate Words(s: string, index: nat, starts: seq<nat>, ends: seq<nat>) {
    && |starts| == |ends|
    && (forall k :: 0 <= k < |ends| ==> index <= starts[k] && IsWord(s, starts[k], ends[k]))
    && (forall k :: 0 < k < |ends| ==> ends[k - 1] <= starts[k])
    && (forall i :: index <= i < |s| && AsciiLetter(s[i]) ==> exists k :: 0 <= k < |ends| && starts[k] <= i < ends[k])
  }

  lemma {:induction false} LettersEndStops(s: string, index: nat)
    requires index <= |s|
    ensures var end := LettersEnd(s, index);
            && (forall k :: index <= k < end ==> AsciiLetter(s[k]))
            && (end < |s| ==> !AsciiLetter(s[end]))
    decreases |s| - index
  {
    if index < |s| && AsciiLetter(s[index]) {
      LettersEndStops(s, index + 1);
    }
  }

  lemma WordEndEnds(s: string, index: nat)
    requires index < |s| && AsciiLetter(s[index])
    ensures IsWord(s, index, WordEnd(s, index))
  {
    hide LettersEnd;
    var middle := LettersEnd(s, index + 1);
    LettersEndStops(s, index + 1);
    if middle + 1 < |s| {
      LettersEndStops(s, middle + 1);
    }
    assert WordWith(s, index, middle, WordEnd(s, index));
  }

  /** The word scan finds exactly the words. */
  lemma {:induction false} WordsFound(s: string, index: nat) returns (starts: seq<nat>)
    requires index <= |s|
    ensures Words(s, index, starts, WordEnds(s, index))
    decreases |s| - index
  {
    hide IsWord, WordEnd;
    if index == |s| {
      starts := [];
    } else if AsciiLetter(s[index]) {
      WordEndEnds(s, index);
      var end := WordEnd(s, index);
      var later := WordsFound(s, end);
      starts := [index] + later;
      WordsBefore(s, index, end, later, WordEnds(s, end));
    } else {
      starts := WordsFound(s, index + 1);
    }
  }

  lemma WordsBefore(s: string, index: nat, end: nat, later: seq<nat>, ends: seq<nat>)
    requires index < end <= |s| && IsWord(s, index, end) && Words(s, end, later, ends)
    ensures Words(s, index, [index] + later, [end] + ends)
  {
    hide IsWord;
    var starts', ends' := [index] + later, [end] + ends;
    forall i | index <= i < |s| && AsciiLetter(s[i])
      ensures exists k :: 0 <= k < |ends'| && starts'[k] <= i < ends'[k]
    {
      if i < end {
        assert starts'[0] <= i < ends'[0];
      } else {
        var k :| 0 <= k < |ends| && later[k] <= i < ends[k];
        assert starts'[k + 1] <= i < ends'[k + 1];
      }
    }
  }

  // ----- Forced cuts -----

  predicate BreaksAt(s: string, group: string, limit: nat, minimum: nat, p: nat) {
    0 < p <= limit <= |s| && minimum <= p && s[p - 1] in group
  }

  ghost predicate LastBreakAt(s: string, group: string, limit: nat, minimum: nat, p: nat) {
    BreaksAt(s, group, limit, minimum, p) && forall q :: p < q <= limit ==> !BreaksAt(s, group, limit, minimum, q)
  }

  lemma {:induction false} LastBreakRule(s: string, group: string, limit: nat, minimum: nat)
    requires limit <= |s|
    ensures var found := LastBreak(s, group, limit, minimum);
            if found.Some? then LastBreakAt(s, group, limit, minimum, found.value)
            else forall p: nat :: !BreaksAt(s, group, limit, minimum, p)
  {
    if limit > 0 && limit >= minimum && s[limit - 1] !in group {
      LastBreakRule(s, group, limit - 1, minimum);
      assert forall p: nat :: BreaksAt(s, group, limit, minimum, p) ==> BreaksAt(s, group, limit - 1, minimum, p);
    }
  }

  /** Too much for one segment: more characters than allowed, or more words. */
  predicate TooLong(settings: Settings, s: string) {
    |s| > settings.maxChars || |WordEnds(s, 0)| > settings.maxWords
  }

  /** How far a forced cut may reach: the character limit, and the end of the last word allowed. */
  predicate IsLimit(settings: Settings, s: string, limit: nat)
    requires settings.Valid()
  {
    var ends := WordEnds(s, 0);
    && limit <= settings.maxChars && (|ends| > settings.maxWords ==> limit <= ends[settings.maxWords - 1])
    && (limit == settings.maxChars || (|ends| > settings.maxWords && limit == ends[settings.maxWords - 1]))
  }

  /** The cut falls behind the last comma or colon that is not too early; without one, behind the last such
      blank; without one, at the limit. */
  ghost predicate ForcedAt(s: string, limit: nat, minimum: nat, cut: nat) {
    if HasBreak(s, WEAK_BREAKS, limit, minimum) then LastBreakAt(s, WEAK_BREAKS, limit, minimum, cut)
    else if HasBreak(s, BLANK_BREAKS, limit, minimum) then LastBreakAt(s, BLANK_BREAKS, limit, minimum, cut)
    else cut == limit
  }

  ghost predicate HasBreak(s: string, group: string, limit: nat, minimum: nat) {
    exists p: nat :: BreaksAt(s, group, limit, minimum, p)
  }

  /** No forced piece is shorter than the minimum, unless the limit is. */
  function Earliest(settings: Settings, limit: nat): nat
    requires settings.Valid()
  {
    if settings.minChars < limit then settings.minChars else limit
  }

  ghost predicate IsForcedCut(settings: Settings, s: string, cut: Option<nat>)
    requires settings.Valid()
  {
    && (cut.None? <==> !TooLong(settings, s))
    && (cut.Some? ==> exists limit: nat :: IsLimit(settings, s, limit) && ForcedAt(s, limit, Earliest(settings, limit), cut.value))
  }

  lemma ForcedRule(settings: Settings, s: string)
    requires settings.Valid()
    ensures IsForcedCut(settings, s, settings.ForcedBoundary(s))
  {
    hide WordEnds, LastBreak, ForcedAt;
    if TooLong(settings, s) {
      var ends := WordEnds(s, 0);
      var limit: nat := if |ends| > settings.maxWords && ends[settings.maxWords - 1] < settings.maxChars
                        then ends[settings.maxWords - 1] else settings.maxChars;
      BreakRule(s, limit, Earliest(settings, limit));
      assert IsLimit(settings, s, limit);
    }
  }

  lemma BreakRule(s: string, limit: nat, minimum: nat)
    requires limit <= |s|
    ensures var weak, blank := LastBreak(s, WEAK_BREAKS, limit, minimum), LastBreak(s, BLANK_BREAKS, limit, minimum);
            ForcedAt(s, limit, minimum, if weak.Some? then weak.value else if blank.Some? then blank.value else limit)
  {
    hide LastBreak, BreaksAt;
    LastBreakRule(s, WEAK_BREAKS, limit, minimum);
    LastBreakRule(s, BLANK_BREAKS, limit, minimum);
  }

  // ----- Sentences -----

  ghost function Sounds(settings: Settings, s: string): set<int> {
    set i | 0 <= i < |s| && settings.word(s[i]) && s[i] != '_'
  }

  /** Long enough to be spoken alone: so many letters, digits and the like, or one of the listed exclamations. */
  ghost predicate LongEnough(settings: Settings, candidate: string) {
    |Sounds(settings, candidate)| >= settings.minChars || candidate in REACTIONS
  }

  lemma {:induction false} CompactSnoc(settings: Settings, s: string)
    requires s != ""
    ensures var last := s[|s| - 1];
            settings.CompactLength(s) ==
            settings.CompactLength(s[..|s| - 1]) + if settings.word(last) && last != '_' then 1 else 0
  {
    if |s| > 1 {
      CompactSnoc(settings, s[1..]);
      assert s[1..][..|s| - 2] == s[..|s| - 1][1..];
    }
  }

  lemma {:induction false} CompactCounts(settings: Settings, s: string)
    ensures settings.CompactLength(s) == |Sounds(settings, s)|
  {
    if s == "" {
      assert Sounds(settings, s) == {};
    } else {
      var n := |s| - 1;
      CompactSnoc(settings, s);
      CompactCounts(settings, s[..n]);
      assert Sounds(settings, s) == Sounds(settings, s[..n]) + if settings.word(s[n]) && s[n] != '_' then {n} else {};
    }
  }

  /** A sentence ends at `at`, is cut behind the closing marks that follow, and is long enough. */
  ghost predicate SentenceAt(settings: Settings, s: string, at: nat, cut: nat, final: bool) {
    && at < cut <= |s| && EndsHere(settings, s, at, final)
    && (forall k :: at < k < cut ==> s[k] in CLOSERS) && (cut < |s| ==> s[cut] !in CLOSERS)
    && LongEnough(settings, settings.Strip(s[..cut]))
  }

  lemma SentenceRule(settings: Settings, s: string, at: nat, cut: nat, final: bool)
    requires at < |s|
    ensures SentenceAt(settings, s, at, cut, final) <==>
            settings.Emittable(s, at, final) && cut == SkipWhile(s, CLOSERS, at + 1)
  {
    hide EndsHere, Settings.Terminal, SkipWhile, Settings.CompactLength, Sounds, Settings.Strip;
    TerminalRule(settings, s, at, final);
    SkipWhileStops(s, CLOSERS, at + 1);
    var end := SkipWhile(s, CLOSERS, at + 1);
    CompactCounts(settings, settings.Strip(s[..end]));
    if SentenceAt(settings, s, at, cut, final) {
      assert cut == end;
    }
  }

  ghost predicate NoSentenceBefore(settings: Settings, s: string, at: nat, final: bool) {
    forall earlier: nat, cut: nat :: earlier < at ==> !SentenceAt(settings, s, earlier, cut, final)
  }

  /** The first sentence is cut off; only a buffer without one, and too long, is cut by force. */
  ghost predicate IsNextCut(settings: Settings, s: string, final: bool, cut: Option<nat>)
    requires settings.Valid()
  {
    if NoSentenceBefore(settings, s, |s|, final) then IsForcedCut(settings, s, cut)
    else
      && cut.Some?
      && exists at: nat :: SentenceAt(settings, s, at, cut.value, final) && NoSentenceBefore(settings, s, at, final)
  }

  lemma NextCutRule(settings: Settings, s: string, final: bool)
    requires settings.Valid()
    ensures IsNextCut(settings, s, final, settings.NextCut(s, final))
  {
    hide Settings.Emittable, SentenceAt, IsForcedCut, Settings.BoundaryFrom, SkipWhile;
    ForcedRule(settings, s);
    settings.BoundaryIsFirst(s, 0, final);
    var found := settings.SentenceBoundary(s, final);
    forall at: nat, cut: nat | at < |s|
      ensures SentenceAt(settings, s, at, cut, final) <==>
              settings.Emittable(s, at, final) && cut == SkipWhile(s, CLOSERS, at + 1)
    {
      SentenceRule(settings, s, at, cut, final);
    }
    if found.Some? {
      var at: nat :| settings.FirstEmittable(s, 0, at, found.value, final);
      assert SentenceAt(settings, s, at, found.value, final);
      SentenceIsSpoken(settings, s, at, final);
    }
  }

  lemma SentenceIsSpoken(settings: Settings, s: string, at: nat, final: bool)
    requires at < |s| && settings.Emittable(s, at, final)
    ensures settings.CanEmit(settings.Strip(s[..SkipWhile(s, CLOSERS, at + 1)]))
  {
  }

  // ----- There is one next cut, and the drain takes it -----

  lemma LimitIsUnique(settings: Settings, s: string, limit: nat, limit': nat)
    requires settings.Valid() && IsLimit(settings, s, limit) && IsLimit(settings, s, limit')
    ensures limit == limit'
  {
  }

  lemma ForcedIsUnique(s: string, limit: nat, minimum: nat, cut: nat, cut': nat)
    requires ForcedAt(s, limit, minimum, cut) && ForcedAt(s, limit, minimum, cut')
    ensures cut == cut'
  {
    if HasBreak(s, WEAK_BREAKS, limit, minimum) {
      LastBreakIsUnique(s, WEAK_BREAKS, limit, minimum, cut, cut');
    } else if HasBreak(s, BLANK_BREAKS, limit, minimum) {
      LastBreakIsUnique(s, BLANK_BREAKS, limit, minimum, cut, cut');
    }
  }

  lemma LastBreakIsUnique(s: string, group: string, limit: nat, minimum: nat, p: nat, q: nat)
    requires LastBreakAt(s, group, limit, minimum, p) && LastBreakAt(s, group, limit, minimum, q)
    ensures p == q
  {
  }

  lemma ForcedCutIsUnique(settings: Settings, s: string, cut: Option<nat>, cut': Option<nat>)
    requires settings.Valid() && IsForcedCut(settings, s, cut) && IsForcedCut(settings, s, cut')
    ensures cut == cut'
  {
    hide IsLimit, ForcedAt, TooLong;
    if cut.Some? && cut'.Some? {
      var limit: nat :| IsLimit(settings, s, limit) && ForcedAt(s, limit, Earliest(settings, limit), cut.value);
      var limit': nat :| IsLimit(settings, s, limit') && ForcedAt(s, limit', Earliest(settings, limit'), cut'.value);
      LimitIsUnique(settings, s, limit, limit');
      ForcedIsUnique(s, limit, Earliest(settings, limit), cut.value, cut'.value);
    }
  }

  lemma SentenceCutIsUnique(settings: Settings, s: string, at: nat, cut: nat, cut': nat, final: bool)
    requires SentenceAt(settings, s, at, cut, final) && SentenceAt(settings, s, at, cut', final)
    ensures cut == cut'
  {
    hide EndsHere, LongEnough;
  }

  lemma NextCutIsUnique(settings: Settings, s: string, final: bool, cut: Option<nat>, cut': Option<nat>)
    requires settings.Valid() && IsNextCut(settings, s, final, cut) && IsNextCut(settings, s, final, cut')
    ensures cut == cut'
  {
    hide SentenceAt, IsForcedCut;
    if NoSentenceBefore(settings, s, |s|, final) {
      ForcedCutIsUnique(settings, s, cut, cut');
    } else {
      var at: nat :| SentenceAt(settings, s, at, cut.value, final) && NoSentenceBefore(settings, s, at, final);
      var at': nat :| SentenceAt(settings, s, at', cut'.value, final) && NoSentenceBefore(settings, s, at', final);
      assert at == at';
      SentenceCutIsUnique(settings, s, at, cut.value, cut'.value, final);
    }
  }

  /** The cut taken is the one the characters call for, and no other. */
  lemma NextCutIff(settings: Settings, s: string, final: bool, cut: Option<nat>)
    requires settings.Valid()
    ensures settings.NextCut(s, final) == cut <==> IsNextCut(settings, s, final, cut)
  {
    hide IsNextCut, Settings.NextCut;
    NextCutRule(settings, s, final);
    if IsNextCut(settings, s, final, cut) {
      NextCutIsUnique(settings, s, final, cut, settings.NextCut(s, final));
    }
  }

  /** A drain cuts where the characters call for it until they call for no cut. */
  lemma DrainRule(settings: Settings, s: string, final: bool, cut: Option<nat>)
    requires settings.Valid() && s != "" && IsNextCut(settings, s, final, cut)
    ensures cut.None? ==> settings.Drain(s, final) == ([], s)
    ensures cut.Some? ==>
              && 0 < cut.value <= |s|
              && var (texts, rest) := settings.Drain(settings.LStrip(s[cut.value..]), final);
                 settings.Drain(s, final) == (Spoken(settings.Strip(s[..cut.value])) + texts, rest)
  {
    hide IsNextCut, Settings.NextCut, Settings.Strip, Settings.LStrip;
    NextCutIff(settings, s, final, cut);
  }

  /** What stays buffered between two deltas holds no whole sentence and is not too long. */
  lemma QuiescentRule(settings: Settings, s: string)
    requires settings.Valid()
    ensures settings.Quiescent(s) <==> NoSentenceBefore(settings, s, |s|, false) && !TooLong(settings, s)
  {
    hide IsForcedCut;
    settings.NoCutMeansQuiescent(s);
    NextCutIff(settings, s, false, None);
    NoForcedCut(settings, s);
  }

  lemma NoForcedCut(settings: Settings, s: string)
    requires settings.Valid()
    ensures IsForcedCut(settings, s, None) <==> !TooLong(settings, s)
  {
  }
}
