/**
 * The segmenter: newline normalisation, a sliding window with overlap that
 * cuts at a natural break, and a first-match classifier of each piece.
 *
 * `LoopAsWritten`/`ChunkAsWritten` follow the service's `while` loop step for
 * step, with a fuel bound standing in for "runs forever"; `Windows`/`Chunk`
 * are the corrected segmentation the rest of the model uses.
 */
module Chunking {
  import opened Wrappers
  import opened Text
  import opened Schemas

  const DefaultChunkSize: nat := 500

  datatype ChunkOptions = ChunkOptions(chunkSize: Option<nat>, overlap: Option<nat>)

  datatype ChunkResult = ChunkResult(content: string, chunkIndex: nat, chunkType: ChunkType)

  // ---------------------------------------------------------------------------
  // Options

  /** `options?.chunkSize || 500`: an absent or zero size means 500. */
  function ChunkSizeOf(options: Option<ChunkOptions>): (cs: nat)
    ensures cs >= 1
    ensures options.None? || options.value.chunkSize.None? || options.value.chunkSize == Some(0) ==> cs == 500
    ensures options.Some? && options.value.chunkSize.Some? && options.value.chunkSize.value != 0
            ==> cs == options.value.chunkSize.value
  {
    if options.Some? && options.value.chunkSize.Some? && options.value.chunkSize.value != 0
    then options.value.chunkSize.value
    else DefaultChunkSize
  }

  /** `options?.overlap || Math.floor(chunkSize * 0.2)`: an absent or zero overlap is a fifth. */
  function OverlapOf(options: Option<ChunkOptions>, cs: nat): (ov: nat)
    ensures options.None? || options.value.overlap.None? || options.value.overlap == Some(0)
            ==> 5 * ov <= cs < 5 * ov + 5
    ensures options.Some? && options.value.overlap.Some? && options.value.overlap.value != 0
            ==> ov == options.value.overlap.value
  {
    if options.Some? && options.value.overlap.Some? && options.value.overlap.value != 0
    then options.value.overlap.value
    else cs / 5
  }

  // ---------------------------------------------------------------------------
  // Normalisation

  /** The length of the run of newlines that `s` starts with. */
  function NewlineRun(s: string): (n: nat)
    ensures n <= |s|
    ensures forall k :: 0 <= k < n ==> s[k] == '\n'
    ensures n < |s| ==> s[n] != '\n'
  {
    if |s| == 0 || s[0] != '\n' then 0 else 1 + NewlineRun(s[1..])
  }

  /** No three consecutive newlines: what `/\n{3,}/` no longer matches. */
  predicate NoNewlineTriple(s: string) {
    forall i :: 0 <= i && i + 2 < |s| ==> !(s[i] == '\n' && s[i + 1] == '\n' && s[i + 2] == '\n')
  }

  /** `s` with every newline removed: the text a newline rewrite must keep. */
  function WithoutNewlines(s: string): string {
    if |s| == 0 then []
    else (if s[0] == '\n' then [] else [s[0]]) + WithoutNewlines(s[1..])
  }

  /**
   * `s.replace(/\n{3,}/g, '\n\n')`: every maximal run of three or more
   * newlines becomes exactly two.
   */
  function CollapseNewlines(s: string): (r: string)
    decreases |s|
    ensures |r| <= |s|
    ensures NoNewlineTriple(r)
    ensures |s| > 0 && s[0] != '\n' ==> |r| > 0 && r[0] == s[0]
  {
    if |s| == 0 then []
    else
      var n := NewlineRun(s);
      if n >= 3 then "\n\n" + CollapseNewlines(s[n..])
      else if n > 0 then s[..n] + CollapseNewlines(s[n..])
      else [s[0]] + CollapseNewlines(s[1..])
  }

  lemma {:induction false} WithoutNewlinesAppend(a: string, b: string)
    ensures WithoutNewlines(a + b) == WithoutNewlines(a) + WithoutNewlines(b)
  {
    if |a| > 0 {
      assert (a + b)[1..] == a[1..] + b;
      WithoutNewlinesAppend(a[1..], b);
    } else {
      assert a + b == b;
    }
  }

  lemma {:induction false} WithoutNewlinesOfNewlines(s: string)
    requires forall k :: 0 <= k < |s| ==> s[k] == '\n'
    ensures WithoutNewlines(s) == []
  {
    if |s| > 0 {
      WithoutNewlinesOfNewlines(s[1..]);
    }
  }

  /** Collapsing newline runs removes newlines only: every other character stays, in order. */
  lemma {:induction false} CollapseKeepsText(s: string)
    decreases |s|
    ensures WithoutNewlines(CollapseNewlines(s)) == WithoutNewlines(s)
  {
    if |s| > 0 {
      var n := NewlineRun(s);
      if n > 0 {
        CollapseKeepsText(s[n..]);
        assert s == s[..n] + s[n..];
        WithoutNewlinesAppend(s[..n], s[n..]);
        WithoutNewlinesOfNewlines(s[..n]);
        var head := if n >= 3 then "\n\n" else s[..n];
        WithoutNewlinesOfNewlines(head);
        WithoutNewlinesAppend(head, CollapseNewlines(s[n..]));
      } else {
        CollapseKeepsText(s[1..]);
        WithoutNewlinesAppend([s[0]], CollapseNewlines(s[1..]));
      }
    }
  }

  /** A text opening with three newlines holds a newline triple. */
  lemma LeadingTriple(s: string)
    requires NewlineRun(s) >= 3
    ensures !NoNewlineTriple(s)
  {
    assert s[0] == '\n' && s[1] == '\n' && s[2] == '\n';
  }

  /** Text without a run of three newlines is left exactly as it is. */
  lemma {:induction false} CollapseIdentity(s: string)
    decreases |s|
    requires NoNewlineTriple(s)
    ensures CollapseNewlines(s) == s
  {
    if |s| > 0 {
      var n := NewlineRun(s);
      if n >= 3 {
        LeadingTriple(s);
        assert false;
      } else {
        var m := if n > 0 then n else 1;
        InfixNoNewlineTriple(s, m, |s|);
        CollapseIdentity(s[m..]);
        assert s == s[..m] + s[m..];
      }
    }
  }

  /** `text.replace(MULTI_NEWLINE_REGEX, '\n\n').trim()`. */
  function Normalize(text: string): string {
    Trim(CollapseNewlines(text))
  }

  /** Every infix of a text without a newline triple is without one too. */
  lemma InfixNoNewlineTriple(s: string, a: nat, b: nat)
    requires a <= b <= |s|
    requires NoNewlineTriple(s)
    ensures NoNewlineTriple(s[a..b])
  {
    forall i | 0 <= i && i + 2 < |s[a..b]|
      ensures !(s[a..b][i] == '\n' && s[a..b][i + 1] == '\n' && s[a..b][i + 2] == '\n')
    {
      assert s[a..b][i] == s[a + i] && s[a..b][i + 1] == s[a + i + 1] && s[a..b][i + 2] == s[a + i + 2];
    }
  }

  /**
   * Normalised text has no run of three newlines, keeps every non-newline
   * character that is not edge white space, and normalising again changes
   * nothing.
   */
  lemma NormalizeProperties(text: string)
    ensures NoNewlineTriple(Normalize(text))
    ensures Normalize(Normalize(text)) == Normalize(text)
    ensures |Normalize(text)| <= |text|
    ensures NoNewlineTriple(text) ==> Normalize(text) == Trim(text)
  {
    var c := CollapseNewlines(text);
    var r := Trim(c);
    var a :| TrimmedAt(c, r, a);
    InfixNoNewlineTriple(c, a, a + |r|);
    CollapseIdentity(r);
    TrimIdempotent(c);
    if NoNewlineTriple(text) {
      CollapseIdentity(text);
    }
  }

  // ---------------------------------------------------------------------------
  // Natural breaks

  const ParagraphBreak: string := "\n\n"

  /** The sentence terminators, in the order the service tries them. */
  const SentenceBreaks: seq<string> := [". ", ".\n", "! ", "!\n", "? ", "?\n"]

  /** A sentence terminator (`.`, `!` or `?` then a space or newline) starts at `q`. */
  predicate SentenceBreakAt(w: string, q: int) {
    && 0 <= q && q + 1 < |w|
    && (w[q] == '.' || w[q] == '!' || w[q] == '?')
    && (w[q + 1] == ' ' || w[q + 1] == '\n')
  }

  /**
   * The `for (const br of sentenceBreaks)` loop: the largest last occurrence of
   * a terminator past 30% of the window, or `best` when none beats it.
   */
  function BestSentenceBreak(w: string, breaks: seq<string>, best: int): int {
    if |breaks| == 0 then best
    else
      var idx := LastIndexOf(w, breaks[0]);
      BestSentenceBreak(w, breaks[1..], if idx > best && 10 * idx > 3 * |w| then idx else best)
  }

  /**
   * The terminator loop keeps the larger of `best` and the last occurrence of
   * each pattern past 30% of the window, and finds nothing else.
   */
  lemma {:induction false} BestSentenceBreakBounds(w: string, breaks: seq<string>, best: int)
    ensures var b := BestSentenceBreak(w, breaks, best);
      && b >= best
      && (b == best || exists k :: 0 <= k < |breaks| && b == LastIndexOf(w, breaks[k]) && 10 * b > 3 * |w|)
      && forall k :: 0 <= k < |breaks| && 10 * LastIndexOf(w, breaks[k]) > 3 * |w| ==> LastIndexOf(w, breaks[k]) <= b
    decreases |breaks|
  {
    if |breaks| > 0 {
      var idx := LastIndexOf(w, breaks[0]);
      var best' := if idx > best && 10 * idx > 3 * |w| then idx else best;
      BestSentenceBreakBounds(w, breaks[1..], best');
      assert forall k :: 1 <= k < |breaks| ==> breaks[k] == breaks[1..][k - 1];
    }
  }

  /**
   * Where a window's natural break lies, as an offset into the window: after
   * the last paragraph break past half of it, else after the last sentence
   * terminator past 30%, else after the last space past half; -1 when there
   * is none of these.
   */
  function BreakOffset(w: string): (o: int)
    ensures o == -1 || (0 < o <= |w| && 10 * o > 3 * |w|)
  {
    var p := LastIndexOf(w, ParagraphBreak);
    if 2 * p > |w| then
      assert OccursAt(w, ParagraphBreak, p);
      p + 2
    else
      BestSentenceBreakBounds(w, SentenceBreaks, -1);
      var b := BestSentenceBreak(w, SentenceBreaks, -1);
      if b > 0 then
        var k :| 0 <= k < |SentenceBreaks| && b == LastIndexOf(w, SentenceBreaks[k]) && 10 * b > 3 * |w|;
        assert OccursAt(w, SentenceBreaks[k], b);
        b + 2
      else
        var sp := LastIndexOf(w, " ");
        if 2 * sp > |w| then
          assert OccursAt(w, " ", sp);
          sp + 1
        else -1
  }

  /** `findNaturalBreak(text, start, end)`: the natural break of `text.slice(start, end)`, else `end`. */
  function FindNaturalBreak(text: string, start: int, end: int): int {
    var o := BreakOffset(JsSlice(text, start, end));
    if o >= 0 then start + o else end
  }

  /** A terminator occurrence is exactly an occurrence of one of the six patterns. */
  lemma SentenceBreakOccurrence(w: string, q: int)
    ensures SentenceBreakAt(w, q) <==> exists k :: 0 <= k < |SentenceBreaks| && OccursAt(w, SentenceBreaks[k], q)
  {
    if SentenceBreakAt(w, q) {
      var k := if w[q] == '.' then 0 else if w[q] == '!' then 2 else 4;
      var k' := if w[q + 1] == ' ' then k else k + 1;
      assert w[q..q + 2] == [w[q], w[q + 1]];
      assert OccursAt(w, SentenceBreaks[k'], q);
    }
    if exists k :: 0 <= k < |SentenceBreaks| && OccursAt(w, SentenceBreaks[k], q) {
      var k :| 0 <= k < |SentenceBreaks| && OccursAt(w, SentenceBreaks[k], q);
      assert w[q] == w[q..q + 2][0] && w[q + 1] == w[q..q + 2][1];
    }
  }

  /** A paragraph break lies past half of the window. */
  ghost predicate ParagraphBreakPastHalf(w: string) {
    exists p :: OccursAt(w, ParagraphBreak, p) && 2 * p > |w|
  }

  /** A sentence terminator lies past 30% of the window. */
  ghost predicate SentenceBreakPastThird(w: string) {
    exists q :: SentenceBreakAt(w, q) && 10 * q > 3 * |w|
  }

  /** A space lies past half of the window. */
  ghost predicate SpacePastHalf(w: string) {
    exists p :: OccursAt(w, " ", p) && 2 * p > |w|
  }

  /** `p` is where the last occurrence of `pat` in `w` starts. */
  ghost predicate IsLastOccurrence(w: string, pat: string, p: int) {
    OccursAt(w, pat, p) && forall q :: p < q ==> !OccursAt(w, pat, q)
  }

  /**
   * A pattern occurs past half of `w` exactly when its last occurrence does,
   * and then the last occurrence is the one past half.
   */
  lemma LastPastHalf(w: string, pat: string)
    ensures (exists q :: OccursAt(w, pat, q) && 2 * q > |w|) <==> 2 * LastIndexOf(w, pat) > |w|
    ensures 2 * LastIndexOf(w, pat) > |w| ==> IsLastOccurrence(w, pat, LastIndexOf(w, pat))
  {
    var p := LastIndexOf(w, pat);
    if exists q :: OccursAt(w, pat, q) && 2 * q > |w| {
      var q :| OccursAt(w, pat, q) && 2 * q > |w|;
      assert p >= q;
    }
    if 2 * p > |w| {
      assert OccursAt(w, pat, p);
    }
  }

  /**
   * The terminator loop finds the last sentence terminator when one lies past
   * 30% of the window, and finds nothing otherwise.
   */
  lemma BestSentenceBreakSpec(w: string)
    ensures var b := BestSentenceBreak(w, SentenceBreaks, -1);
            && (SentenceBreakPastThird(w) ==>
                  b > 0 && SentenceBreakAt(w, b) && forall q :: b < q ==> !SentenceBreakAt(w, q))
            && (!SentenceBreakPastThird(w) ==> b <= 0)
  {
    BestBreakFound(w);
    BestBreakIsLast(w);
  }

  /** What the terminator loop finds is a terminator past 30% of the window. */
  lemma BestBreakFound(w: string)
    ensures var b := BestSentenceBreak(w, SentenceBreaks, -1);
            b == -1 || (SentenceBreakAt(w, b) && 10 * b > 3 * |w|)
  {
    var b := BestSentenceBreak(w, SentenceBreaks, -1);
    BestSentenceBreakBounds(w, SentenceBreaks, -1);
    if b != -1 {
      var k :| 0 <= k < |SentenceBreaks| && b == LastIndexOf(w, SentenceBreaks[k]) && 10 * b > 3 * |w|;
      assert OccursAt(w, SentenceBreaks[k], b);
      OccurrenceIsSentenceBreak(w, k, b);
    }
  }

  /** An occurrence of one of the six patterns is a sentence terminator. */
  lemma OccurrenceIsSentenceBreak(w: string, k: int, q: int)
    requires 0 <= k < |SentenceBreaks| && OccursAt(w, SentenceBreaks[k], q)
    ensures SentenceBreakAt(w, q)
  {
    assert w[q] == w[q..q + 2][0] && w[q + 1] == w[q..q + 2][1];
  }

  /** No terminator past 30% of the window lies beyond what the loop finds. */
  lemma BestBreakIsLast(w: string)
    ensures forall q :: SentenceBreakAt(w, q) && 10 * q > 3 * |w| ==> q <= BestSentenceBreak(w, SentenceBreaks, -1)
  {
    BestSentenceBreakBounds(w, SentenceBreaks, -1);
    forall q | SentenceBreakAt(w, q) && 10 * q > 3 * |w|
      ensures q <= BestSentenceBreak(w, SentenceBreaks, -1)
    {
      SentenceBreakOccurrence(w, q);
      var k :| 0 <= k < |SentenceBreaks| && OccursAt(w, SentenceBreaks[k], q);
      assert LastIndexOf(w, SentenceBreaks[k]) >= q;
    }
  }


  /** With a paragraph break past half of the window, the cut follows the last one. */
  lemma ParagraphBreakChosen(w: string)
    requires ParagraphBreakPastHalf(w)
    ensures IsLastOccurrence(w, ParagraphBreak, BreakOffset(w) - 2)
  {
    LastPastHalf(w, ParagraphBreak);
  }

  /** Without one, a sentence terminator past 30% puts the cut after the last terminator. */
  lemma SentenceBreakChosen(w: string)
    requires !ParagraphBreakPastHalf(w) && SentenceBreakPastThird(w)
    ensures SentenceBreakAt(w, BreakOffset(w) - 2)
    ensures forall q :: BreakOffset(w) - 2 < q ==> !SentenceBreakAt(w, q)
  {
    LastPastHalf(w, ParagraphBreak);
    BestSentenceBreakSpec(w);
  }

  /** Without either, a space past half of the window puts the cut after the last space. */
  lemma SpaceChosen(w: string)
    requires !ParagraphBreakPastHalf(w) && !SentenceBreakPastThird(w) && SpacePastHalf(w)
    ensures IsLastOccurrence(w, " ", BreakOffset(w) - 1)
  {
    LastPastHalf(w, ParagraphBreak);
    BestSentenceBreakSpec(w);
    LastPastHalf(w, " ");
  }

  /** Without any of the three there is no natural break. */
  lemma NoBreakFound(w: string)
    requires !ParagraphBreakPastHalf(w) && !SentenceBreakPastThird(w) && !SpacePastHalf(w)
    ensures BreakOffset(w) == -1
  {
    LastPastHalf(w, ParagraphBreak);
    BestSentenceBreakSpec(w);
    LastPastHalf(w, " ");
  }

  // ---------------------------------------------------------------------------
  // Classification

  /** `[A-ZÀ-ɏ]`: the first character of a title line. */
  predicate IsTitleLead(c: char) {
    ('A' <= c <= 'Z') || ('\U{00C0}' <= c <= '\U{024F}')
  }

  /** The offset of the line terminator ending the line through `i`, or `|s|`. */
  function LineEnd(s: string, i: nat): (e: nat)
    requires i <= |s|
    decreases |s| - i
    ensures i <= e <= |s|
    ensures forall k :: i <= k < e ==> !IsLineTerminator(s[k])
    ensures e < |s| ==> IsLineTerminator(s[e])
  {
    if i == |s| || IsLineTerminator(s[i]) then i else LineEnd(s, i + 1)
  }

  /** `^` of a multiline regex matches at `i`. */
  predicate LineStartAt(s: string, i: nat) {
    i <= |s| && (i == 0 || IsLineTerminator(s[i - 1]))
  }

  /** `TITLE_REGEX` (`/^[A-ZÀ-ɏ].{0,50}$/m`) matches a line starting at `i`. */
  predicate TitleLineAt(s: string, i: nat) {
    LineStartAt(s, i) && i < |s| && IsTitleLead(s[i]) && LineEnd(s, i) - i <= 51
  }

  /** `LIST_REGEX` (`/^\d+\./m`) matches a line starting at `i`. */
  predicate NumberedLineAt(s: string, i: nat) {
    LineStartAt(s, i)
    && exists j :: i < j < |s| && s[j] == '.' && forall k :: i <= k < j ==> IsDigit(s[k])
  }

  predicate HasTitleLine(s: string) {
    exists i :: 0 <= i < |s| && TitleLineAt(s, i)
  }

  predicate HasNumberedLine(s: string) {
    exists i :: 0 <= i < |s| && NumberedLineAt(s, i)
  }

  /** A heading marker or a short line opening with a capital. */
  predicate TitleCue(content: string) {
    StartsWith(content, "#") || HasTitleLine(content)
  }

  /** A dash or bullet item, or a numbered line. */
  predicate ListCue(content: string) {
    Contains(content, "- ") || Contains(content, "\U{2022} ") || HasNumberedLine(content)
  }

  /** A code fence or a double space. */
  predicate CodeCue(content: string) {
    Contains(content, "```") || Contains(content, "  ")
  }

  /** `detectChunkType`: the first cue found, in the order title, list, code. */
  function DetectChunkType(content: string): ChunkType {
    if TitleCue(content) then Title
    else if ListCue(content) then List
    else if CodeCue(content) then Code
    else Paragraph
  }

  // ---------------------------------------------------------------------------
  // The loop as the service writes it

  /** Where the window opening at `start` ends: a natural break, else `start + chunkSize`, capped at the text. */
  function WindowEnd(text: string, cs: nat, start: int): int {
    if start + cs < |text| then
      var nb := FindNaturalBreak(text, start, start + cs);
      if nb > start then nb else start + cs
    else |text|
  }

  /**
   * The next window start as written: `end - overlap`, forced to `end` when it
   * does not pass `end - chunkSize` (or 0 before the first chunk).
   */
  function NextStartAsWritten(end: int, cs: nat, overlap: nat, hasChunks: bool): int {
    var s := end - overlap;
    if s <= (if hasChunks then end - cs else 0) then end else s
  }

  /** The chunks after one window's piece: appended when non-empty after trimming. */
  function EmitPiece(chunks: seq<ChunkResult>, piece: string): seq<ChunkResult> {
    if |piece| > 0 then chunks + [ChunkResult(piece, |chunks|, DetectChunkType(piece))] else chunks
  }

  /**
   * The `while (start < cleanedText.length)` loop, one iteration per unit of
   * fuel; `None` means the fuel ran out before the loop exited.
   */
  function LoopAsWritten(text: string, cs: nat, overlap: nat, start: int, chunks: seq<ChunkResult>, fuel: nat)
    : Option<seq<ChunkResult>>
    decreases fuel
  {
    if start >= |text| then Some(chunks)
    else if fuel == 0 then None
    else
      var end := WindowEnd(text, cs, start);
      var chunks' := EmitPiece(chunks, Trim(JsSlice(text, start, end)));
      LoopAsWritten(text, cs, overlap, NextStartAsWritten(end, cs, overlap, |chunks'| > 0), chunks', fuel - 1)
  }

  /** `chunk(text, options)` as written, with at most `fuel` loop iterations. */
  function ChunkAsWritten(text: string, options: Option<ChunkOptions>, fuel: nat): Option<seq<ChunkResult>> {
    var cs := ChunkSizeOf(options);
    var ov := OverlapOf(options, cs);
    var cleaned := Normalize(text);
    if |cleaned| <= cs then Some([ChunkResult(cleaned, 0, Paragraph)])
    else LoopAsWritten(cleaned, cs, ov, 0, [], fuel)
  }

  /** A window starting inside the text ends after its start, within `chunkSize`, beyond 30% of it unless at the end. */
  lemma WindowEndBounds(text: string, cs: nat, start: int)
    requires cs >= 1 && 0 <= start < |text|
    ensures var e := WindowEnd(text, cs, start);
            && start < e <= |text| && e <= start + cs
            && (e < |text| ==> 10 * (e - start) > 3 * cs)
  {
    if start + cs < |text| {
      assert |JsSlice(text, start, start + cs)| == cs;
    }
  }

  /**
   * Once a window ends at the text's end, the start it computes next is
   * `length - overlap`, and from there the loop only ever comes back to the
   * same start: with `0 < overlap < chunkSize` it never exits.
   */
  lemma {:induction false} AsWrittenFixedPoint(text: string, cs: nat, overlap: nat, chunks: seq<ChunkResult>, fuel: nat)
    requires 0 < overlap < cs < |text|
    ensures LoopAsWritten(text, cs, overlap, |text| - overlap, chunks, fuel).None?
    decreases fuel
  {
    if fuel > 0 {
      var start := |text| - overlap;
      var end := WindowEnd(text, cs, start);
      assert end == |text|;
      var chunks' := EmitPiece(chunks, Trim(JsSlice(text, start, end)));
      assert NextStartAsWritten(end, cs, overlap, |chunks'| > 0) == start;
      AsWrittenFixedPoint(text, cs, overlap, chunks', fuel - 1);
    }
  }

  /**
   * With an overlap of at most 30% of the window, every window either moves
   * the start forward inside the text or ends at the text's end and lands on
   * the fixed point: the loop never exits, whatever the fuel.
   */
  lemma {:induction false} AsWrittenNeverFinishes(
    text: string, cs: nat, overlap: nat, start: int, chunks: seq<ChunkResult>, fuel: nat)
    requires 1 <= cs < |text|
    requires 0 < overlap && 10 * overlap <= 3 * cs
    requires 0 <= start < |text|
    ensures LoopAsWritten(text, cs, overlap, start, chunks, fuel).None?
    decreases fuel, 1
  {
    if fuel == 0 {
      AsWrittenOutOfFuel(text, cs, overlap, start, chunks);
    } else {
      AsWrittenKeepsGoing(text, cs, overlap, start, chunks, fuel);
    }
  }

  /** With fuel left, one turn keeps the start inside the text, and the rest of the loop does not exit. */
  lemma AsWrittenKeepsGoing(
    text: string, cs: nat, overlap: nat, start: int, chunks: seq<ChunkResult>, fuel: nat)
    requires 1 <= cs < |text|
    requires 0 < overlap && 10 * overlap <= 3 * cs
    requires 0 <= start < |text| && fuel > 0
    ensures LoopAsWritten(text, cs, overlap, start, chunks, fuel).None?
    decreases fuel, 0
  {
    var next, chunks' := AsWrittenStep(text, cs, overlap, start, chunks, fuel);
    AsWrittenNeverFinishes(text, cs, overlap, next, chunks', fuel - 1);
  }

  /** With no fuel left and the start inside the text, the loop has not exited. */
  lemma AsWrittenOutOfFuel(text: string, cs: nat, overlap: nat, start: int, chunks: seq<ChunkResult>)
    requires start < |text|
    ensures LoopAsWritten(text, cs, overlap, start, chunks, 0).None?
  {
  }

  /** One turn of the loop as written, from a start inside the text to another start inside it. */
  lemma AsWrittenStep(text: string, cs: nat, overlap: nat, start: int, chunks: seq<ChunkResult>, fuel: nat)
    returns (next: int, chunks': seq<ChunkResult>)
    requires 1 <= cs < |text|
    requires 0 < overlap && 10 * overlap <= 3 * cs
    requires 0 <= start < |text| && fuel > 0
    ensures 0 <= next < |text|
    ensures LoopAsWritten(text, cs, overlap, next, chunks', fuel - 1).None? ==> LoopAsWritten(text, cs, overlap, start, chunks, fuel).None?
  {
    var end := WindowEnd(text, cs, start);
    WindowEndBounds(text, cs, start);
    chunks' := EmitPiece(chunks, Trim(JsSlice(text, start, end)));
    next := NextStartAsWritten(end, cs, overlap, |chunks'| > 0);
    NextStartInside(text, cs, overlap, start, end, |chunks'| > 0);
    AsWrittenUnroll(text, cs, overlap, start, chunks, fuel);
  }

  /** One step of the loop as written keeps the start inside the text. */
  lemma NextStartInside(text: string, cs: nat, overlap: nat, start: int, end: int, hasChunks: bool)
    requires 1 <= cs < |text|
    requires 0 < overlap && 10 * overlap <= 3 * cs
    requires 0 <= start < end <= |text| && end <= start + cs
    requires end < |text| ==> 10 * (end - start) > 3 * cs
    ensures 0 <= NextStartAsWritten(end, cs, overlap, hasChunks) < |text|
  {
  }

  /** One turn of the loop as written. */
  lemma AsWrittenUnroll(text: string, cs: nat, overlap: nat, start: int, chunks: seq<ChunkResult>, fuel: nat)
    requires start < |text| && fuel > 0
    ensures var end := WindowEnd(text, cs, start);
      var chunks' := EmitPiece(chunks, Trim(JsSlice(text, start, end)));
      LoopAsWritten(text, cs, overlap, start, chunks, fuel)
        == LoopAsWritten(text, cs, overlap, NextStartAsWritten(end, cs, overlap, |chunks'| > 0), chunks', fuel - 1)
  {
  }

  /**
   * Under default options any text whose normalised form is longer than 500
   * characters keeps the loop running for ever.
   */
  lemma ChunkAsWrittenDivergesOnDefaults(text: string, fuel: nat)
    requires |Normalize(text)| > 500
    ensures ChunkAsWritten(text, None, fuel).None?
  {
    AsWrittenNeverFinishes(Normalize(text), 500, 100, 0, [], fuel);
  }

  /**
   * A concrete family: any text of more than 500 characters without white
   * space (600 letters, say) keeps the loop running under default options.
   */
  lemma UnbrokenTextDiverges(text: string, fuel: nat)
    requires |text| > 500
    requires forall i :: 0 <= i < |text| ==> !IsJsSpace(text[i])
    ensures ChunkAsWritten(text, None, fuel).None?
  {
    assert NoNewlineTriple(text) by {
      forall i | 0 <= i && i + 2 < |text|
        ensures text[i] != '\n'
      {
        assert !IsJsSpace(text[i]);
      }
    }
    NormalizeProperties(text);
    assert LeadingSpace(text) == 0;
    assert text[0..] == text;
    assert TrailingSpace(text) == 0;
    assert Trim(text) == text;
    ChunkAsWrittenDivergesOnDefaults(text, fuel);
  }

  // ---------------------------------------------------------------------------
  // The corrected segmentation

  datatype Window = Window(start: nat, end: nat)

  /**
   * The next start with progress enforced: `end - overlap`, or `end` when that
   * would not move past the current start.
   */
  function NextStart(start: int, end: int, overlap: nat): int {
    if end - overlap <= start then end else end - overlap
  }

  /**
   * Wherever the written guard already moves the start forward, the corrected
   * guard picks the same start: the correction only changes steps that would
   * stall or go back.
   */
  lemma NextStartAgrees(start: int, end: int, cs: nat, overlap: nat, hasChunks: bool)
    requires 0 <= start < end <= start + cs
    requires NextStartAsWritten(end, cs, overlap, hasChunks) > start
    ensures NextStart(start, end, overlap) == NextStartAsWritten(end, cs, overlap, hasChunks)
  {
  }

  /**
   * `ws` is a run of windows from `start` as the corrected loop takes them:
   * each opens where the previous step put the start, ends after it, within
   * `chunkSize` and inside the text; a window that is not the last ends
   * before the text does, past 30% of `chunkSize`, and the next opens at
   * `NextStart`; the last one ends with the text.
   */
  predicate Chain(text: string, cs: nat, overlap: nat, ws: seq<Window>, start: nat)
    decreases |ws|
  {
    && |ws| >= 1 && ws[0].start == start
    && start < ws[0].end <= |text| && ws[0].end <= start + cs
    && (|ws| == 1 <==> ws[0].end == |text|)
    && (|ws| > 1 ==>
          && 10 * (ws[0].end - start) > 3 * cs
          && ws[1].start == NextStart(start, ws[0].end, overlap)
          && Chain(text, cs, overlap, ws[1..], ws[1].start))
  }

  /**
   * The windows the loop visits when it stops after the window that reaches
   * the end of the text.
   */
  function Windows(text: string, cs: nat, overlap: nat, start: nat): (ws: seq<Window>)
    requires 1 <= cs && start < |text|
    decreases |text| - start
    ensures Chain(text, cs, overlap, ws, start)
  {
    WindowEndBounds(text, cs, start);
    var end := WindowEnd(text, cs, start);
    if end >= |text| then [Window(start, |text|)]
    else [Window(start, end)] + Windows(text, cs, overlap, NextStart(start, end, overlap))
  }

  /**
   * Along a chain every window lies inside the text and spans at most
   * `chunkSize` characters, starts move strictly forward, consecutive
   * windows overlap or touch, and only the last reaches the end.
   */
  lemma {:induction false} ChainShape(text: string, cs: nat, overlap: nat, ws: seq<Window>, start: nat)
    requires Chain(text, cs, overlap, ws, start)
    decreases |ws|
    ensures ws[|ws| - 1].end == |text|
    ensures forall i :: 0 <= i < |ws| ==> ws[i].start < ws[i].end <= |text| && ws[i].end - ws[i].start <= cs
    ensures forall i :: 0 <= i < |ws| - 1 ==> ws[i].start < ws[i + 1].start <= ws[i].end < |text|
  {
    if |ws| > 1 {
      ChainShape(text, cs, overlap, ws[1..], ws[1].start);
      assert forall i :: 1 <= i < |ws| ==> ws[i] == ws[1..][i - 1];
    }
  }

  /** A chain leaves no gap: every position from its first start on lies in some window. */
  lemma {:induction false} ChainCovers(text: string, cs: nat, overlap: nat, ws: seq<Window>, start: nat, p: nat)
    requires Chain(text, cs, overlap, ws, start)
    requires start <= p < |text|
    decreases |ws|
    ensures exists i :: 0 <= i < |ws| && ws[i].start <= p < ws[i].end
  {
    if p >= ws[0].end {
      ChainCovers(text, cs, overlap, ws[1..], ws[1].start, p);
      var i :| 0 <= i < |ws[1..]| && ws[1..][i].start <= p < ws[1..][i].end;
      assert ws[i + 1] == ws[1..][i];
    } else {
      assert ws[0].start <= p < ws[0].end;
    }
  }

  /**
   * With an overlap of at most a fifth, each step moves the start forward by
   * more than a tenth of `chunkSize`, so the number of windows is linear in
   * the text length over the chunk size.
   */
  lemma {:induction false} ChainLength(text: string, cs: nat, overlap: nat, ws: seq<Window>, start: nat)
    requires Chain(text, cs, overlap, ws, start)
    requires 5 * overlap <= cs
    decreases |ws|
    ensures 10 * (|ws| - 1) * cs < 100 * (|text| - start) + 10 * cs
  {
    if |ws| > 1 {
      assert 10 * (ws[1].start - start) > cs;
      ChainLength(text, cs, overlap, ws[1..], ws[1].start);
      TenfoldStep(|ws| - 2, cs);
    }
  }

  /** `10 * (k + 1) * c` splits off one `10 * c`. */
  lemma TenfoldStep(k: int, c: int)
    ensures 10 * (k + 1) * c == 10 * k * c + 10 * c
  {
  }

  /** The piece a window contributes: its slice of the text, trimmed. */
  function Piece(text: string, w: Window): string
    requires w.start <= w.end <= |text|
  {
    Trim(text[w.start..w.end])
  }

  predicate WindowsInside(text: string, ws: seq<Window>) {
    forall i :: 0 <= i < |ws| ==> ws[i].start <= ws[i].end <= |text|
  }

  /** The pieces of a run of windows, in order. */
  function Pieces(text: string, ws: seq<Window>): (ps: seq<string>)
    requires WindowsInside(text, ws)
    ensures |ps| == |ws|
    ensures forall i :: 0 <= i < |ws| ==> ps[i] == Piece(text, ws[i])
  {
    seq(|ws|, i requires 0 <= i < |ws| && WindowsInside(text, ws) => Piece(text, ws[i]))
  }

  /**
   * Emitting chunks from pieces: each non-blank piece becomes the next
   * chunk, numbered on from `next` and classified; blank pieces are skipped.
   */
  function Emit(pieces: seq<string>, next: nat): (r: seq<ChunkResult>)
    ensures |r| <= |pieces|
    ensures forall k :: 0 <= k < |r| ==> r[k].chunkIndex == next + k
    ensures forall k :: 0 <= k < |r| ==> r[k].content != [] && r[k].chunkType == DetectChunkType(r[k].content)
  {
    if |pieces| == 0 then []
    else if pieces[0] != [] then
      [ChunkResult(pieces[0], next, DetectChunkType(pieces[0]))] + Emit(pieces[1..], next + 1)
    else Emit(pieces[1..], next)
  }

  /** Every chunk is one of the pieces. */
  lemma {:induction false} EmitFromPieces(pieces: seq<string>, next: nat)
    decreases |pieces|
    ensures forall k :: 0 <= k < |Emit(pieces, next)| ==> Emit(pieces, next)[k].content in pieces
  {
    if |pieces| > 0 {
      var d := if pieces[0] != [] then 1 else 0;
      EmitFromPieces(pieces[1..], next + d);
      var rest := Emit(pieces[1..], next + d);
      var r := Emit(pieces, next);
      if d == 1 {
        assert r == [ChunkResult(pieces[0], next, DetectChunkType(pieces[0]))] + rest;
      } else {
        assert r == rest;
      }
      forall k | 0 <= k < |r|
        ensures r[k].content in pieces
      {
        if k >= d {
          assert r[k] == rest[k - d];
          InTail(pieces, rest[k - d].content);
        }
      }
    }
  }

  /** What the tail of a list holds, the list holds. */
  lemma InTail<T>(xs: seq<T>, x: T)
    requires |xs| > 0 && x in xs[1..]
    ensures x in xs
  {
    var i :| 0 <= i < |xs| - 1 && xs[1..][i] == x;
    assert xs[i + 1] == x;
  }

  /** Some chunk of `r` holds exactly `p`. */
  ghost predicate Emitted(r: seq<ChunkResult>, p: string) {
    exists k :: 0 <= k < |r| && r[k].content == p
  }

  /** Every non-blank piece yields a chunk: nothing but blank pieces is dropped. */
  lemma {:induction false} EmitKeepsPieces(pieces: seq<string>, next: nat)
    decreases |pieces|
    ensures forall i :: 0 <= i < |pieces| && pieces[i] != [] ==> Emitted(Emit(pieces, next), pieces[i])
  {
    if |pieces| > 0 {
      var d := if pieces[0] != [] then 1 else 0;
      EmitKeepsPieces(pieces[1..], next + d);
      var rest := Emit(pieces[1..], next + d);
      var r := Emit(pieces, next);
      assert r == (if d == 1 then [ChunkResult(pieces[0], next, DetectChunkType(pieces[0]))] else []) + rest;
      forall i | 0 <= i < |pieces| && pieces[i] != []
        ensures Emitted(r, pieces[i])
      {
        if i == 0 {
          assert r[0].content == pieces[0];
        } else {
          assert pieces[1..][i - 1] == pieces[i];
          assert Emitted(rest, pieces[1..][i - 1]);
          var k :| 0 <= k < |rest| && rest[k].content == pieces[1..][i - 1];
          assert r[k + d] == rest[k];
        }
      }
    }
  }

  /** A piece as the loop keeps it: trimmed, and no longer than `chunkSize`. */
  predicate PieceShaped(p: string, cs: nat) {
    |p| <= cs && Trim(p) == p
  }

  /** Windows of at most `chunkSize` characters give shaped pieces. */
  lemma PiecesShaped(text: string, ws: seq<Window>, cs: nat)
    requires WindowsInside(text, ws)
    requires forall i :: 0 <= i < |ws| ==> ws[i].end - ws[i].start <= cs
    ensures forall i :: 0 <= i < |ws| ==> PieceShaped(Pieces(text, ws)[i], cs)
  {
    forall i | 0 <= i < |ws|
      ensures PieceShaped(Pieces(text, ws)[i], cs)
    {
      PieceIsShaped(text, ws[i], cs);
    }
  }

  lemma PieceIsShaped(text: string, w: Window, cs: nat)
    requires w.start <= w.end <= |text| && w.end - w.start <= cs
    ensures PieceShaped(Piece(text, w), cs)
  {
    TrimIdempotent(text[w.start..w.end]);
  }

  /** A window opening on a non-space character has a non-blank piece. */
  lemma PieceNonBlank(text: string, w: Window)
    requires w.start < w.end <= |text| && !IsJsSpace(text[w.start])
    ensures Piece(text, w) != []
  {
    var s := text[w.start..w.end];
    assert s[0] == text[w.start];
    var r := Trim(s);
    var a :| TrimmedAt(s, r, a);
  }

  /**
   * The pieces of the windows the corrected loop takes over normalised text
   * longer than one chunk: the first is not blank, and each is trimmed and
   * at most `chunkSize` long.
   */
  function SegmentPieceList(cleaned: string, cs: nat, overlap: nat): (ps: seq<string>)
    requires 1 <= cs < |cleaned| && !IsJsSpace(cleaned[0])
    ensures |ps| >= 1 && ps[0] != []
    ensures forall i :: 0 <= i < |ps| ==> PieceShaped(ps[i], cs)
  {
    var ws := Windows(cleaned, cs, overlap, 0);
    assert ws[0].start == 0 && 0 < ws[0].end <= |cleaned|;
    ChainShape(cleaned, cs, overlap, ws, 0);
    PieceNonBlank(cleaned, ws[0]);
    PiecesShaped(cleaned, ws, cs);
    Pieces(cleaned, ws)
  }

  /**
   * The loop's part of `chunk`, corrected, on normalised text longer than one
   * chunk: at least one chunk, numbered from 0 without gaps.
   */
  function Segment(cleaned: string, cs: nat, overlap: nat): (r: seq<ChunkResult>)
    requires 1 <= cs < |cleaned| && !IsJsSpace(cleaned[0])
    ensures |r| >= 1
    ensures forall k :: 0 <= k < |r| ==> r[k].chunkIndex == k
  {
    var pieces := SegmentPieceList(cleaned, cs, overlap);
    EmitKeepsPieces(pieces, 0);
    assert Emitted(Emit(pieces, 0), pieces[0]);
    Emit(pieces, 0)
  }

  /** Chunks emitted from shaped pieces are shaped. */
  lemma EmitShaped(pieces: seq<string>, next: nat, cs: nat)
    requires forall i :: 0 <= i < |pieces| ==> PieceShaped(pieces[i], cs)
    ensures forall k :: 0 <= k < |Emit(pieces, next)| ==> PieceShaped(Emit(pieces, next)[k].content, cs)
  {
    EmitFromPieces(pieces, next);
    var r := Emit(pieces, next);
    forall k | 0 <= k < |r|
      ensures PieceShaped(r[k].content, cs)
    {
      var i :| 0 <= i < |pieces| && pieces[i] == r[k].content;
    }
  }

  /**
   * The segments are non-empty, trimmed, classified pieces of at most
   * `chunkSize` characters.
   */
  lemma SegmentPieces(cleaned: string, cs: nat, overlap: nat, r: seq<ChunkResult>)
    requires 1 <= cs < |cleaned| && !IsJsSpace(cleaned[0])
    requires r == Segment(cleaned, cs, overlap)
    ensures forall k :: 0 <= k < |r| ==>
              && r[k].content != [] && PieceShaped(r[k].content, cs)
              && r[k].chunkType == DetectChunkType(r[k].content)
  {
    EmitShaped(SegmentPieceList(cleaned, cs, overlap), 0, cs);
  }

  /** Every character of the text lies in one of the windows the segments are cut from. */
  lemma SegmentCoversText(cleaned: string, cs: nat, overlap: nat, ws: seq<Window>, p: nat)
    requires 1 <= cs < |cleaned| && !IsJsSpace(cleaned[0])
    requires ws == Windows(cleaned, cs, overlap, 0)
    requires p < |cleaned|
    ensures WindowsInside(cleaned, ws)
    ensures Segment(cleaned, cs, overlap) == Emit(Pieces(cleaned, ws), 0)
    ensures |Pieces(cleaned, ws)| == |ws|
    ensures exists i :: 0 <= i < |ws| && ws[i].start <= p < ws[i].end
  {
    ChainShape(cleaned, cs, overlap, ws, 0);
    ChainCovers(cleaned, cs, overlap, ws, 0, p);
  }

  /** With an overlap of at most a fifth, the number of windows is linear in the text length. */
  lemma WindowCountBound(cleaned: string, cs: nat, overlap: nat, ws: seq<Window>)
    requires 1 <= cs < |cleaned|
    requires 5 * overlap <= cs
    requires ws == Windows(cleaned, cs, overlap, 0)
    ensures 10 * (|ws| - 1) * cs < 100 * |cleaned| + 10 * cs
  {
    ChainLength(cleaned, cs, overlap, ws, 0);
  }

  /**
   * `chunk(text, options)` with the loop corrected: text that fits one chunk
   * comes back whole and unclassified, longer text is segmented.
   */
  function Chunk(text: string, options: Option<ChunkOptions>): (r: seq<ChunkResult>)
    ensures |r| >= 1
    ensures forall k :: 0 <= k < |r| ==> r[k].chunkIndex == k
    ensures |Normalize(text)| <= ChunkSizeOf(options) ==> r == [ChunkResult(Normalize(text), 0, Paragraph)]
    ensures |Normalize(text)| > ChunkSizeOf(options) ==>
              r == Segment(Normalize(text), ChunkSizeOf(options), OverlapOf(options, ChunkSizeOf(options)))
  {
    var cs := ChunkSizeOf(options);
    var cleaned := Normalize(text);
    if |cleaned| <= cs then [ChunkResult(cleaned, 0, Paragraph)]
    else Segment(cleaned, cs, OverlapOf(options, cs))
  }

  /** Where the service terminates, on text that fits one chunk, both versions agree. */
  lemma ShortTextAgrees(text: string, options: Option<ChunkOptions>, fuel: nat)
    requires |Normalize(text)| <= ChunkSizeOf(options)
    ensures ChunkAsWritten(text, options, fuel) == Some(Chunk(text, options))
  {
  }
}
