/** The cutting rules of app/pipelines/segmenter.py as functions on the buffered text.

    `Settings` carries the limits of one segmenter and Python's three Unicode classes
    (whitespace as stripped by `str.strip`, `\w`, and `str.isdigit`), which stay arbitrary. */
module Segmentation {
  import opened Options

  const ABBREVIATIONS: set<string> :=
    {"dr", "e.g", "etc", "i.e", "jr", "mr", "mrs", "ms", "prof", "sr", "st", "vs"}
  const REACTIONS: set<string> :=
    {"啊！", "啊？", "え？", "えっ？", "嗯！", "嗯？", "哼！", "呀！", "诶！", "诶？", "哦！", "哦？", "欸？"}
  const CLOSERS: string := "\"'”’」』】）》〕〉）]}"
  const HARD_TERMINATORS: string := "。！？!?；;"
  const WEAK_BREAKS: string := "，、,：:"
  const BLANK_BREAKS: string := " \t\n"

  predicate AsciiLetter(c: char) {
    'A' <= c <= 'Z' || 'a' <= c <= 'z'
  }

  predicate AsciiUpper(c: char) {
    'A' <= c <= 'Z'
  }

  function AsciiLower(s: string): string {
    seq(|s|, i requires 0 <= i < |s| => if AsciiUpper(s[i]) then (s[i] - 'A') + 'a' else s[i])
  }

  /** The text a `$` anchor sees: it also matches before one final newline. */
  function AnchoredEnd(s: string): string {
    if s != "" && s[|s| - 1] == '\n' then s[..|s| - 1] else s
  }

  function TrailingLetters(s: string): string {
    if s == "" || !AsciiLetter(s[|s| - 1]) then "" else TrailingLetters(s[..|s| - 1]) + [s[|s| - 1]]
  }

  /** One letter with its dot, opened at a word boundary, followed by a last letter: the tail of "U.S". */
  predicate EndsInInitials(word: char -> bool, s: string) {
    var n := |s|;
    && n >= 3
    && AsciiLetter(s[n - 1]) && s[n - 2] == '.' && AsciiLetter(s[n - 3])
    && (n == 3 || !word(s[n - 4]))
  }

  /** First index of the run of `c` that reaches back from `index`. */
  function RunStart(s: string, c: char, index: nat): (start: nat)
    requires index <= |s|
    ensures start <= index
  {
    if index > 0 && s[index - 1] == c then RunStart(s, c, index - 1) else index
  }

  /** First index at or after `index` that does not hold a character of `group`. */
  function SkipWhile(s: string, group: string, index: nat): (end: nat)
    requires index <= |s|
    ensures index <= end <= |s|
    decreases |s| - index
  {
    if index < |s| && s[index] in group then SkipWhile(s, group, index + 1) else index
  }

  function LettersEnd(s: string, index: nat): (end: nat)
    requires index <= |s|
    ensures index <= end <= |s|
    decreases |s| - index
  {
    if index < |s| && AsciiLetter(s[index]) then LettersEnd(s, index + 1) else index
  }

  /** End of the word that starts at `index`: letters, then an apostrophe only if letters follow it. */
  function WordEnd(s: string, index: nat): (end: nat)
    requires index < |s| && AsciiLetter(s[index])
    ensures index < end <= |s|
  {
    var end := LettersEnd(s, index + 1);
    if end + 1 < |s| && s[end] == '\'' && AsciiLetter(s[end + 1]) then LettersEnd(s, end + 1) else end
  }

  /** Ends of the successive words found from `index` on. */
  function WordEnds(s: string, index: nat): (ends: seq<nat>)
    requires index <= |s|
    ensures forall k :: 0 <= k < |ends| ==> index < ends[k] <= |s|
    decreases |s| - index
  {
    if index == |s| then []
    else if AsciiLetter(s[index]) then [WordEnd(s, index)] + WordEnds(s, WordEnd(s, index))
    else WordEnds(s, index + 1)
  }

  /** Last position of `group` inside the first `limit` characters, at `minimum` or later, counted past it. */
  function LastBreak(s: string, group: string, limit: nat, minimum: nat): (position: Option<nat>)
    requires limit <= |s|
    ensures position.Some? ==> 0 < position.value <= limit
  {
    if limit == 0 || limit < minimum then None
    else if s[limit - 1] in group then Some(limit)
    else LastBreak(s, group, limit - 1, minimum)
  }

  /** Only a non-empty candidate becomes a segment. */
  function Spoken(candidate: string): seq<string> {
    if candidate == "" then [] else [candidate]
  }

  datatype Settings = Settings(
    minChars: int, maxChars: int, maxWords: int,
    space: char -> bool, word: char -> bool, digit: char -> bool)
  {
    predicate Valid() {
      1 <= minChars <= maxChars && 1 <= maxWords
    }

    predicate Blank(s: string) {
      forall i :: 0 <= i < |s| ==> space(s[i])
    }

    function LStrip(s: string): string {
      if s != "" && space(s[0]) then LStrip(s[1..]) else s
    }

    function RStrip(s: string): string {
      if s != "" && space(s[|s| - 1]) then RStrip(s[..|s| - 1]) else s
    }

    function Strip(s: string): string {
      RStrip(LStrip(s))
    }

    /** How many characters survive removing non-word characters and underscores. */
    function CompactLength(s: string): nat {
      if s == "" then 0
      else (if word(s[0]) && s[0] != '_' then 1 else 0) + CompactLength(s[1..])
    }

    predicate CanEmit(candidate: string) {
      CompactLength(candidate) >= minChars || candidate in REACTIONS
    }

    predicate PeriodIsTerminal(buffer: string, index: nat, final: bool)
      requires index < |buffer|
    {
      var after := index + 1 < |buffer|;
      if (index > 0 && buffer[index - 1] == '.') || (after && buffer[index + 1] == '.') then
        var start := RunStart(buffer, '.', index);
        var end := SkipWhile(buffer, ".", index + 1);
        end - start >= 3 && index == end - 1
      else if index > 0 && digit(buffer[index - 1]) && after && digit(buffer[index + 1]) then false
      else
        var prefix := AnchoredEnd(buffer[..index]);
        var last := TrailingLetters(prefix);
        if last != "" && AsciiLower(last) in ABBREVIATIONS then false
        else if EndsInInitials(word, prefix) then false
        else if |last| == 1 && AsciiUpper(last[0]) then false
        else after || final
    }

    predicate EllipsisIsTerminal(buffer: string, index: nat, final: bool)
      requires index < |buffer|
    {
      var start := RunStart(buffer, '…', index);
      var end := SkipWhile(buffer, "…", index + 1);
      index == end - 1 && (end - start >= 2 || final)
    }

    predicate Terminal(buffer: string, index: nat, final: bool)
      requires index < |buffer|
    {
      if buffer[index] == '.' then PeriodIsTerminal(buffer, index, final)
      else if buffer[index] == '…' then EllipsisIsTerminal(buffer, index, final)
      else buffer[index] in HARD_TERMINATORS
    }

    /** A terminator at `index` whose sentence, closers included, is long enough to speak. */
    predicate Emittable(buffer: string, index: nat, final: bool)
      requires index < |buffer|
    {
      Terminal(buffer, index, final) && CanEmit(Strip(buffer[..SkipWhile(buffer, CLOSERS, index + 1)]))
    }

    function BoundaryFrom(buffer: string, index: nat, final: bool): Option<nat>
      requires index <= |buffer|
      decreases |buffer| - index
    {
      if index == |buffer| then None
      else if Emittable(buffer, index, final) then Some(SkipWhile(buffer, CLOSERS, index + 1))
      else BoundaryFrom(buffer, index + 1, final)
    }

    function SentenceBoundary(buffer: string, final: bool): Option<nat> {
      BoundaryFrom(buffer, 0, final)
    }

    function ForcedBoundary(buffer: string): Option<nat>
      requires Valid()
    {
      var ends := WordEnds(buffer, 0);
      if |buffer| <= maxChars && |ends| <= maxWords then None
      else
        var limit := if |ends| > maxWords && ends[maxWords - 1] < maxChars then ends[maxWords - 1] else maxChars;
        var minimum := if minChars < limit then minChars else limit;
        var weak := LastBreak(buffer, WEAK_BREAKS, limit, minimum);
        if weak.Some? then weak
        else
          var blank := LastBreak(buffer, BLANK_BREAKS, limit, minimum);
          if blank.Some? then blank else Some(limit)
    }

    /** Where the next cut falls, or nothing when the buffer has to wait for more text. */
    function NextCut(buffer: string, final: bool): (cut: Option<nat>)
      requires Valid()
      ensures cut.Some? ==> 0 < cut.value <= |buffer|
    {
      BoundaryInRange(buffer, 0, final);
      var sentence := SentenceBoundary(buffer, final);
      if sentence.Some? && CanEmit(Strip(buffer[..sentence.value])) then sentence else ForcedBoundary(buffer)
    }

    /** The texts one drain emits and the buffer it leaves. */
    function Drain(buffer: string, final: bool): (result: (seq<string>, string))
      requires Valid()
      decreases |buffer|
    {
      var cut := NextCut(buffer, final);
      if buffer == "" || cut.None? then ([], buffer)
      else
        var candidate := Strip(buffer[..cut.value]);
        LStripShrinks(buffer[cut.value..]);
        var (texts, rest) := Drain(LStrip(buffer[cut.value..]), final);
        (Spoken(candidate) + texts, rest)
    }

    function Feed(buffer: string, delta: string): (seq<string>, string)
      requires Valid()
    {
      if delta == "" then ([], buffer) else Drain(buffer + delta, false)
    }

    function Flush(buffer: string): seq<string>
      requires Valid()
    {
      var (texts, rest) := Drain(buffer, true);
      texts + Spoken(Strip(rest))
    }

    /** All the texts of a reply whose remaining deltas are `deltas`, from a buffer on. */
    function ReplyTexts(buffer: string, deltas: seq<string>): seq<string>
      requires Valid()
      decreases |deltas|
    {
      if deltas == [] then Flush(buffer)
      else
        var (texts, rest) := Feed(buffer, deltas[0]);
        texts + ReplyTexts(rest, deltas[1..])
    }

    /** `text` is blank gaps around `pieces`, in order, followed by `rest`. */
    ghost predicate Covers(text: string, pieces: seq<string>, rest: string)
      decreases |pieces|, 1
    {
      exists gap: string, tail: string :: CoversAfterGap(text, gap, tail, pieces, rest)
    }

    ghost predicate CoversAfterGap(text: string, gap: string, tail: string, pieces: seq<string>, rest: string)
      decreases |pieces|, 0
    {
      && text == gap + tail
      && Blank(gap)
      && if pieces == [] then tail == rest
         else pieces[0] <= tail && Covers(tail[|pieces[0]|..], pieces[1..], rest)
    }

    ghost predicate Trimmed(s: string) {
      s != "" && !space(s[0]) && !space(s[|s| - 1])
    }

    /** Nothing more can be cut before further text arrives. */
    ghost predicate Quiescent(buffer: string) {
      && |buffer| <= maxChars
      && |WordEnds(buffer, 0)| <= maxWords
      && forall i :: 0 <= i < |buffer| ==> !Emittable(buffer, i, false)
    }

    function NonSpace(s: string): string {
      if s == "" then ""
      else
        var head := if space(s[0]) then "" else [s[0]];
        head + NonSpace(s[1..])
    }

    // ----- Stripping -----

    lemma LStripShrinks(s: string)
      ensures |LStrip(s)| <= |s|
    {
    }

    lemma LStripSplits(s: string) returns (gap: nat)
      ensures gap <= |s| && Blank(s[..gap]) && LStrip(s) == s[gap..]
      ensures LStrip(s) == "" || !space(LStrip(s)[0])
    {
      if s != "" && space(s[0]) {
        var rest := LStripSplits(s[1..]);
        gap := rest + 1;
        assert s[..gap] == [s[0]] + s[1..][..rest];
      } else {
        gap := 0;
      }
    }

    lemma RStripSplits(s: string)
      ensures RStrip(s) <= s && Blank(s[|RStrip(s)|..])
      ensures RStrip(s) == "" || !space(RStrip(s)[|RStrip(s)| - 1])
    {
      if s != "" && space(s[|s| - 1]) {
        RStripSplits(s[..|s| - 1]);
        assert s[|RStrip(s)|..] == s[..|s| - 1][|RStrip(s)|..] + [s[|s| - 1]];
      }
    }

    /** Stripping takes blank ends off and leaves nothing or a trimmed text. */
    lemma StripSplits(s: string) returns (gap: nat)
      ensures gap + |Strip(s)| <= |s| && Strip(s) == s[gap..gap + |Strip(s)|]
      ensures Blank(s[..gap]) && Blank(s[gap + |Strip(s)|..])
      ensures Strip(s) == "" || Trimmed(Strip(s))
    {
      gap := LStripSplits(s);
      RStripSplits(s[gap..]);
    }

    lemma {:induction false} NonSpaceCons(c: char, s: string)
      ensures NonSpace([c] + s) == (if space(c) then "" else [c]) + NonSpace(s)
    {
      assert ([c] + s)[1..] == s;
    }

    lemma {:induction false} NonSpaceConcat(s: string, t: string)
      ensures NonSpace(s + t) == NonSpace(s) + NonSpace(t)
    {
      if s == "" {
        assert s + t == t;
      } else {
        hide NonSpace;
        NonSpaceConcat(s[1..], t);
        NonSpaceCons(s[0], s[1..]);
        NonSpaceCons(s[0], s[1..] + t);
        assert s == [s[0]] + s[1..] && s + t == [s[0]] + (s[1..] + t);
      }
    }

    lemma NonSpaceBlank(s: string)
      requires Blank(s)
      ensures NonSpace(s) == ""
    {
    }

    // ----- Boundaries -----

    lemma BoundaryInRange(buffer: string, index: nat, final: bool)
      requires index <= |buffer|
      ensures var cut := BoundaryFrom(buffer, index, final); cut.Some? ==> index < cut.value <= |buffer|
      decreases |buffer| - index
    {
      if index < |buffer| && !Emittable(buffer, index, final) {
        BoundaryInRange(buffer, index + 1, final);
      }
    }

    /** `cut` closes the first emittable terminator at or after `index`. */
    ghost predicate FirstEmittable(buffer: string, index: nat, at: nat, cut: nat, final: bool) {
      && index <= at < |buffer| && Emittable(buffer, at, final)
      && cut == SkipWhile(buffer, CLOSERS, at + 1)
      && forall j :: index <= j < at ==> !Emittable(buffer, j, final)
    }

    /** The boundary is the first emittable terminator's, and is missing only when there is none. */
    lemma {:induction false} BoundaryIsFirst(buffer: string, index: nat, final: bool)
      requires index <= |buffer|
      ensures var found := BoundaryFrom(buffer, index, final);
              if found.None? then forall i :: index <= i < |buffer| ==> !Emittable(buffer, i, final)
              else exists at: nat :: FirstEmittable(buffer, index, at, found.value, final)
      decreases |buffer| - index
    {
      hide Emittable, SkipWhile;
      if index < |buffer| {
        if Emittable(buffer, index, final) {
          assert FirstEmittable(buffer, index, index, BoundaryFrom(buffer, index, final).value, final);
        } else {
          BoundaryIsFirst(buffer, index + 1, final);
          var found := BoundaryFrom(buffer, index + 1, final);
          if found.Some? {
            var at: nat :| FirstEmittable(buffer, index + 1, at, found.value, final);
            assert FirstEmittable(buffer, index, at, found.value, final);
          }
        }
      }
    }

    lemma EmittableIsSpoken(candidate: string)
      requires Valid() && CanEmit(candidate)
      ensures candidate != ""
    {
    }

    /** No cut is possible exactly when the buffer is quiescent. */
    lemma NoCutMeansQuiescent(buffer: string)
      requires Valid()
      ensures NextCut(buffer, false).None? <==> Quiescent(buffer)
    {
      BoundaryIsFirst(buffer, 0, false);
    }

    /** `piece` is the sentence of `text` that an emittable terminator at `at` ends. */
    predicate IsSentence(text: string, at: nat, final: bool, piece: string) {
      at < |text| && Emittable(text, at, final) && piece == Strip(text[..SkipWhile(text, CLOSERS, at + 1)])
    }

    /** A cut beyond `maxChars` can only be the end of an emittable sentence. */
    lemma LongCutIsSentence(buffer: string, final: bool)
      requires Valid() && NextCut(buffer, final).Some?
      ensures var cut := NextCut(buffer, final).value;
              cut <= maxChars || exists at: nat :: IsSentence(buffer, at, final, Strip(buffer[..cut]))
    {
      var cut := NextCut(buffer, final).value;
      if cut > maxChars {
        BoundaryIsFirst(buffer, 0, final);
        var at: nat :| FirstEmittable(buffer, 0, at, cut, final);
        assert IsSentence(buffer, at, final, Strip(buffer[..cut]));
      }
    }

    lemma SkipWhileSkips(text: string, group: string, index: nat, i: nat)
      requires index <= |text| && index <= i < SkipWhile(text, group, index)
      ensures text[i] in group
      decreases |text| - index
    {
      if index < i {
        SkipWhileSkips(text, group, index + 1, i);
      }
    }

    /** With Python's white space, which holds no terminator and no closer, a sentence ends in its terminator
        and the closers that follow it. */
    lemma SentenceEndsInTerminator(text: string, at: nat, final: bool, piece: string) returns (k: nat)
      requires IsSentence(text, at, final, piece) && MarksAreSolid()
      ensures k < |piece| && piece[k] == text[at]
      ensures IsTerminator(piece[k])
      ensures forall j :: k < j < |piece| ==> piece[j] in CLOSERS
    {
      TerminatorAt(text, at, final);
      hide Emittable, Strip, Blank, SkipWhile, MarksAreSolid, IsTerminator;
      var sentence := text[..SkipWhile(text, CLOSERS, at + 1)];
      SolidEnd(text, at);
      var gap := StripOfSolid(sentence);
      SpaceAt(sentence, gap, at);
      assert piece == text[gap..SkipWhile(text, CLOSERS, at + 1)];
      ClosersFollow(text, at, gap);
      k := at - gap;
    }

    lemma ClosersFollow(text: string, at: nat, gap: nat)
      requires gap <= at < |text|
      ensures var piece := text[gap..SkipWhile(text, CLOSERS, at + 1)];
              piece[at - gap] == text[at] && forall j :: at - gap < j < |piece| ==> piece[j] in CLOSERS
    {
      var end := SkipWhile(text, CLOSERS, at + 1);
      forall j | at - gap < j < end - gap ensures text[gap..end][j] in CLOSERS {
        SkipWhileSkips(text, CLOSERS, at + 1, gap + j);
      }
    }

    lemma TerminatorAt(text: string, at: nat, final: bool)
      requires at < |text| && Emittable(text, at, final)
      ensures IsTerminator(text[at])
    {
    }

    predicate IsTerminator(c: char) {
      c in HARD_TERMINATORS || c == '.' || c == '…'
    }

    ghost predicate MarksAreSolid() {
      (forall c :: IsTerminator(c) ==> !space(c)) && (forall c :: c in CLOSERS ==> !space(c))
    }

    lemma SpaceAt(s: string, gap: nat, i: nat)
      requires gap <= |s| && i < |s| && Blank(s[..gap])
      ensures i < gap ==> space(s[i])
    {
      if i < gap {
        assert s[..gap][i] == s[i];
      }
    }

    lemma SolidEnd(text: string, at: nat)
      requires at < |text| && IsTerminator(text[at]) && MarksAreSolid()
      ensures !space(text[at])
      ensures !space(text[..SkipWhile(text, CLOSERS, at + 1)][SkipWhile(text, CLOSERS, at + 1) - 1])
    {
      var end := SkipWhile(text, CLOSERS, at + 1);
      if end > at + 1 {
        SkipWhileSkips(text, CLOSERS, at + 1, end - 1);
      }
    }

    lemma StripOfSolid(s: string) returns (gap: nat)
      requires s != "" && !space(s[|s| - 1])
      ensures gap < |s| && Blank(s[..gap]) && Strip(s) == s[gap..]
    {
      hide Blank;
      gap := LStripSplits(s);
      SpaceAt(s, gap, |s| - 1);
    }

    // ----- Conservation -----

    lemma {:induction false} CoversAfterBlank(blank: string, text: string, pieces: seq<string>, rest: string)
      requires Blank(blank) && Covers(text, pieces, rest)
      ensures Covers(blank + text, pieces, rest)
    {
      var gap, tail :| CoversAfterGap(text, gap, tail, pieces, rest);
      assert blank + text == (blank + gap) + tail;
      assert CoversAfterGap(blank + text, blank + gap, tail, pieces, rest);
    }

    lemma {:induction false} CoversPiece(gap: string, piece: string, text: string, pieces: seq<string>, rest: string)
      requires Blank(gap) && Covers(text, pieces, rest)
      ensures Covers(gap + (piece + text), [piece] + pieces, rest)
    {
      assert (piece + text)[|piece|..] == text;
      assert ([piece] + pieces)[1..] == pieces;
      assert CoversAfterGap(gap + (piece + text), gap, piece + text, [piece] + pieces, rest);
    }

    lemma {:induction false} CoversNothing(text: string)
      ensures Covers(text, [], text)
    {
      assert text == "" + text;
      assert CoversAfterGap(text, "", text, [], text);
    }

    /** Two covers chain: what the first leaves is covered, with the added text, by the second. */
    lemma {:induction false} CoversChain(
      text: string, first: seq<string>, middle: string, added: string, second: seq<string>, rest: string)
      requires Covers(text, first, middle) && Covers(middle + added, second, rest)
      ensures Covers(text + added, first + second, rest)
      decreases |first|
    {
      var gap, tail :| CoversAfterGap(text, gap, tail, first, middle);
      if first == [] {
        assert text + added == gap + (middle + added);
        assert first + second == second;
        CoversAfterBlank(gap, middle + added, second, rest);
      } else {
        var after := tail[|first[0]|..];
        CoversChain(after, first[1..], middle, added, second, rest);
        CoversPiece(gap, first[0], after + added, first[1..] + second, rest);
        assert tail == first[0] + after;
        assert text + added == gap + (first[0] + (after + added));
        assert first + second == [first[0]] + (first[1..] + second);
      }
    }

    lemma {:induction false} CoversNonSpace(text: string, pieces: seq<string>, rest: string)
      requires Covers(text, pieces, rest)
      ensures NonSpace(text) == NonSpace(Concat(pieces)) + NonSpace(rest)
      decreases |pieces|
    {
      var gap, tail :| CoversAfterGap(text, gap, tail, pieces, rest);
      NonSpaceConcat(gap, tail);
      NonSpaceBlank(gap);
      if pieces != [] {
        var after := tail[|pieces[0]|..];
        assert tail == pieces[0] + after;
        NonSpaceConcat(pieces[0], after);
        NonSpaceConcat(pieces[0], Concat(pieces[1..]));
        CoversNonSpace(after, pieces[1..], rest);
      }
    }

    /** Stripping a text leaves it covered by the stripped piece alone. */
    lemma StripCovers(s: string)
      ensures Covers(s, Spoken(Strip(s)), "")
      ensures Strip(s) == "" || Trimmed(Strip(s))
      ensures |Strip(s)| <= |s|
    {
      var gap := StripSplits(s);
      var end := s[gap + |Strip(s)|..];
      CoversNothing("");
      CoversAfterBlank(end, "", [], "");
      assert end + "" == end;
      assert s == s[..gap] + (Strip(s) + end);
      if Strip(s) == "" {
        assert Strip(s) + end == end;
        CoversAfterBlank(s[..gap], end, [], "");
      } else {
        CoversPiece(s[..gap], Strip(s), end, [], "");
        assert [Strip(s)] + [] == Spoken(Strip(s));
      }
    }

    lemma {:induction false} CutCovers(buffer: string, cut: nat, texts: seq<string>, rest: string)
      requires cut <= |buffer| && Covers(LStrip(buffer[cut..]), texts, rest)
      ensures Covers(buffer, Spoken(Strip(buffer[..cut])) + texts, rest)
    {
      hide Covers, Strip, LStrip, Blank, Spoken;
      var head, tail := buffer[..cut], buffer[cut..];
      var lead := LStripSplits(tail);
      assert tail == tail[..lead] + LStrip(tail);
      CoversAfterBlank(tail[..lead], LStrip(tail), texts, rest);
      StripCovers(head);
      assert "" + tail == tail && buffer == head + tail;
      CoversChain(head, Spoken(Strip(head)), "", tail, texts, rest);
    }

    // ----- Drain -----

    /** One turn of the drain loop, after `texts` have been emitted. */
    lemma DrainStep(texts: seq<string>, buffer: string, final: bool)
      requires Valid() && buffer != "" && NextCut(buffer, final).Some?
      ensures var cut := NextCut(buffer, final).value;
              var candidate, rest := Strip(buffer[..cut]), LStrip(buffer[cut..]);
              && |rest| < |buffer|
              && texts + Drain(buffer, final).0 == texts + Spoken(candidate) + Drain(rest, final).0
              && Drain(buffer, final).1 == Drain(rest, final).1
    {
      var cut := NextCut(buffer, final).value;
      var candidate, rest := Strip(buffer[..cut]), LStrip(buffer[cut..]);
      LStripShrinks(buffer[cut..]);
      hide NextCut, Strip, LStrip, Spoken;
      var more := Drain(rest, final).0;
      assert Drain(buffer, final).0 == Spoken(candidate) + more;
      assert texts + (Spoken(candidate) + more) == texts + Spoken(candidate) + more;
    }

    lemma DrainStops(buffer: string, final: bool)
      requires Valid() && (buffer == "" || NextCut(buffer, final).None?)
      ensures Drain(buffer, final) == ([], buffer)
    {
    }

    lemma {:induction false} DrainCovers(buffer: string, final: bool)
      requires Valid()
      ensures Covers(buffer, Drain(buffer, final).0, Drain(buffer, final).1)
      decreases |buffer|
    {
      var cut := NextCut(buffer, final);
      if buffer == "" || cut.None? {
        CoversNothing(buffer);
      } else {
        LStripShrinks(buffer[cut.value..]);
        var (texts, rest) := Drain(LStrip(buffer[cut.value..]), final);
        DrainCovers(LStrip(buffer[cut.value..]), final);
        CutCovers(buffer, cut.value, texts, rest);
      }
    }

    /** Pieces are trimmed, no longer than the buffer, and only sentences are longer than `maxChars`. */
    ghost predicate GoodPieces(pieces: seq<string>, longest: nat) {
      forall i :: 0 <= i < |pieces| ==>
        Trimmed(pieces[i]) && |pieces[i]| <= longest && (|pieces[i]| <= maxChars || EndsSentence(pieces[i]))
    }

    ghost predicate EndsSentence(piece: string) {
      exists text: string, at: nat, final: bool :: IsSentence(text, at, final, piece)
    }

    lemma {:induction false} DrainPieces(buffer: string, final: bool)
      requires Valid()
      ensures GoodPieces(Drain(buffer, final).0, |buffer|)
      ensures |Drain(buffer, final).1| <= |buffer|
      decreases |buffer|
    {
      var cut := NextCut(buffer, final);
      if buffer != "" && cut.Some? {
        LStripShrinks(buffer[cut.value..]);
        LongCutIsSentence(buffer, final);
        var gap := StripSplits(buffer[..cut.value]);
        if cut.value > maxChars {
          var at: nat :| IsSentence(buffer, at, final, Strip(buffer[..cut.value]));
          assert EndsSentence(Strip(buffer[..cut.value]));
        }
        DrainPieces(LStrip(buffer[cut.value..]), final);
      }
    }

    lemma {:induction false} DrainLeavesNoCut(buffer: string, final: bool)
      requires Valid()
      ensures NextCut(Drain(buffer, final).1, final).None?
      decreases |buffer|
    {
      var cut := NextCut(buffer, final);
      if buffer != "" && cut.Some? {
        LStripShrinks(buffer[cut.value..]);
        DrainLeavesNoCut(LStrip(buffer[cut.value..]), final);
      }
    }

    // ----- Main results -----

    /** Everything one feed promises, on any buffer the segmenter can hold. */
    lemma FeedResult(buffer: string, delta: string)
      requires Valid() && Quiescent(buffer)
      ensures var (texts, rest) := Feed(buffer, delta);
              && Covers(buffer + delta, texts, rest)
              && Quiescent(rest)
              && GoodPieces(texts, maxChars + |delta|)
    {
      if delta == "" {
        assert buffer + delta == buffer;
        CoversNothing(buffer);
      } else {
        DrainCovers(buffer + delta, false);
        DrainPieces(buffer + delta, false);
        DrainLeavesNoCut(buffer + delta, false);
        NoCutMeansQuiescent(Drain(buffer + delta, false).1);
      }
    }

    /** A flush speaks all the text that is left. */
    lemma FlushCovers(buffer: string)
      requires Valid()
      ensures Covers(buffer, Flush(buffer), "")
    {
      var (texts, rest) := Drain(buffer, true);
      DrainCovers(buffer, true);
      StripCovers(rest);
      assert rest + "" == rest && buffer + "" == buffer;
      CoversChain(buffer, texts, rest, "", Spoken(Strip(rest)), "");
    }

    lemma FlushPieces(buffer: string)
      requires Valid()
      ensures GoodPieces(Flush(buffer), |buffer|)
    {
      var (texts, rest) := Drain(buffer, true);
      DrainPieces(buffer, true);
      DrainLeavesNoCut(buffer, true);
      assert |rest| <= maxChars;
      StripCovers(rest);
    }

    lemma {:induction false} ReplyCovers(buffer: string, deltas: seq<string>)
      requires Valid() && Quiescent(buffer)
      ensures Covers(buffer + Concat(deltas), ReplyTexts(buffer, deltas), "")
      decreases |deltas|
    {
      hide Covers, GoodPieces, Quiescent, Feed, Flush;
      if deltas == [] {
        assert buffer + "" == buffer;
        FlushCovers(buffer);
      } else {
        var (texts, rest) := Feed(buffer, deltas[0]);
        FeedResult(buffer, deltas[0]);
        ReplyCovers(rest, deltas[1..]);
        CoversChain(buffer + deltas[0], texts, rest, Concat(deltas[1..]), ReplyTexts(rest, deltas[1..]), "");
        assert buffer + Concat(deltas) == buffer + deltas[0] + Concat(deltas[1..]);
      }
    }

    /** However a reply is chunked, its segments are its text in order, up to blanks between them. */
    lemma ReplyLosesNothing(deltas: seq<string>)
      requires Valid()
      ensures Covers(Concat(deltas), ReplyTexts("", deltas), "")
      ensures NonSpace(Concat(ReplyTexts("", deltas))) == NonSpace(Concat(deltas))
    {
      ReplyCovers("", deltas);
      assert "" + Concat(deltas) == Concat(deltas);
      CoversNonSpace(Concat(deltas), ReplyTexts("", deltas), "");
      assert NonSpace(Concat(ReplyTexts("", deltas))) + "" == NonSpace(Concat(ReplyTexts("", deltas)));
    }
  }

  function Concat(texts: seq<string>): string {
    if texts == [] then "" else texts[0] + Concat(texts[1..])
  }
}
