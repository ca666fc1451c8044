/** The Chunker: cutting the raw document into slide texts, either at blank
    lines (paragraph mode, App.js:121-127) or by the length-bounded,
    punctuation-aware "smart split" (App.js:133-165). */
module Chunker {
  import opened Text

  // ---------------------------------------------------------------------
  // Paragraph mode: split at blank-line runs, trim, drop empty pieces
  // ---------------------------------------------------------------------

  /** No two consecutive line feeds. */
  predicate NoBlankRun(t: String)
  {
    forall i :: 0 <= i < |t| - 1 ==> !(t[i] == '\n' && t[i + 1] == '\n')
  }

  predicate StartsWithBlankRun(s: String)
  {
    |s| >= 2 && s[0] == '\n' && s[1] == '\n'
  }

  /** `s` with its leading run of line feeds removed. */
  function DropLineFeeds(s: String): (r: String)
    ensures |r| <= |s| && r == s[|s| - |r|..]
    ensures r == [] || r[0] != '\n'
  {
    if |s| > 0 && s[0] == '\n' then DropLineFeeds(s[1..]) else s
  }

  /** `s.split(/\n\n+/)`: the pieces between maximal runs of two or more line
      feeds. The regular expression is greedy and matched leftmost, so a run
      is always consumed whole; an empty string gives one empty piece. */
  function SplitBlankRuns(s: String): (pieces: seq<String>)
    ensures |pieces| >= 1
    ensures forall k :: 0 <= k < |pieces| ==> NoBlankRun(pieces[k])
    ensures s != [] && !StartsWithBlankRun(s) ==> pieces[0] != [] && pieces[0][0] == s[0]
    decreases |s|
  {
    if s == [] then [[]]
    else if StartsWithBlankRun(s) then [[]] + SplitBlankRuns(DropLineFeeds(s))
    else
      var rest := SplitBlankRuns(s[1..]);
      assert s[0] == '\n' && rest[0] != [] ==> rest[0][0] != '\n';
      [[s[0]] + rest[0]] + rest[1..]
  }

  /** Every piece trimmed, and the pieces left empty dropped. */
  function TrimNonEmpty(pieces: seq<String>): (chunks: seq<String>)
    ensures |chunks| <= |pieces|
    ensures forall k :: 0 <= k < |chunks| ==> chunks[k] != [] && Trimmed(chunks[k])
  {
    if pieces == [] then []
    else
      var t := Trim(pieces[0]);
      (if t == [] then [] else [t]) + TrimNonEmpty(pieces[1..])
  }

  /** The slide texts of paragraph mode. */
  function Paragraphs(raw: String): (chunks: seq<String>)
    ensures forall k :: 0 <= k < |chunks| ==> chunks[k] != [] && Trimmed(chunks[k])
  {
    TrimNonEmpty(SplitBlankRuns(raw))
  }

  /** A slice of a string with no blank run has none either. */
  lemma NoBlankRunSlice(t: String, i: nat, j: nat)
    requires NoBlankRun(t) && i <= j <= |t|
    ensures NoBlankRun(t[i..j])
  {
    assert forall k :: 0 <= k < j - i ==> t[i..j][k] == t[i + k];
  }

  lemma {:induction false} TrimNonEmptyNoBlankRun(pieces: seq<String>)
    requires forall k :: 0 <= k < |pieces| ==> NoBlankRun(pieces[k])
    ensures forall k :: 0 <= k < |TrimNonEmpty(pieces)| ==> NoBlankRun(TrimNonEmpty(pieces)[k])
  {
    if pieces != [] {
      var p := pieces[0];
      var t := Trim(p);
      var rest := TrimNonEmpty(pieces[1..]);
      NoBlankRunSlice(p, TrimOffset(p), TrimOffset(p) + |t|);
      TrimNonEmptyNoBlankRun(pieces[1..]);
      if t == [] {
        assert TrimNonEmpty(pieces) == rest;
      } else {
        var chunks := TrimNonEmpty(pieces);
        assert chunks == [t] + rest;
        forall k | 0 <= k < |chunks| ensures NoBlankRun(chunks[k]) {
          if k > 0 { assert chunks[k] == rest[k - 1]; }
        }
      }
    }
  }

  lemma {:induction false} TrimNonEmptyContent(pieces: seq<String>)
    ensures Content(TrimNonEmpty(pieces)) == Content(pieces)
  {
    if pieces != [] {
      var t := Trim(pieces[0]);
      TrimKeepsContent(pieces[0]);
      TrimNonEmptyContent(pieces[1..]);
      ContentAppend(if t == [] then [] else [t], TrimNonEmpty(pieces[1..]));
    }
  }

  lemma {:induction false} DropLineFeedsContent(s: String)
    ensures NonWs(DropLineFeeds(s)) == NonWs(s)
  {
    if |s| > 0 && s[0] == '\n' {
      DropLineFeedsContent(s[1..]);
    }
  }

  /** Splitting at blank runs only removes line feeds. */
  lemma {:induction false} SplitBlankRunsContent(s: String)
    ensures Content(SplitBlankRuns(s)) == NonWs(s)
    decreases |s|
  {
    if s == [] {
    } else if StartsWithBlankRun(s) {
      SplitBlankRunsContent(DropLineFeeds(s));
      DropLineFeedsContent(s);
      ContentCons([], SplitBlankRuns(DropLineFeeds(s)));
    } else {
      var rest := SplitBlankRuns(s[1..]);
      SplitBlankRunsContent(s[1..]);
      HeadTail(rest);
      HeadTail(s);
      ExtendFirstContent(s[0], rest[0], rest[1..], s[1..]);
    }
  }

  /** Prepending one character to the first piece prepends its content. */
  lemma ExtendFirstContent(c: char, first: String, others: seq<String>, t: String)
    requires Content([first] + others) == NonWs(t)
    ensures Content([[c] + first] + others) == NonWs([c] + t)
  {
    ContentCons(first, others);
    ContentCons([c] + first, others);
    NonWsAppend([c], first);
    NonWsAppend([c], t);
    AppendAssoc(NonWs([c]), NonWs(first), Content(others));
  }

  /** Paragraph mode yields non-empty, trimmed chunks with no blank line
      inside, and together they hold every non-whitespace character of the
      document, in order. */
  lemma ParagraphsWellFormed(raw: String)
    ensures forall k :: 0 <= k < |Paragraphs(raw)| ==>
              Paragraphs(raw)[k] != [] && Trimmed(Paragraphs(raw)[k]) && NoBlankRun(Paragraphs(raw)[k])
    ensures Content(Paragraphs(raw)) == NonWs(raw)
  {
    TrimNonEmptyNoBlankRun(SplitBlankRuns(raw));
    TrimNonEmptyContent(SplitBlankRuns(raw));
    SplitBlankRunsContent(raw);
  }

  /** Zero slides exactly when the document is empty or whitespace only. */
  lemma ParagraphsEmptyIff(raw: String)
    ensures Paragraphs(raw) == [] <==> AllWs(raw)
  {
    TrimNonEmptyContent(SplitBlankRuns(raw));
    SplitBlankRunsContent(raw);
    NonWsEmptyIff(raw);
    var chunks := Paragraphs(raw);
    if chunks != [] {
      TrimmedHasContent(chunks[0]);
      HeadTail(chunks);
      ContentCons(chunks[0], chunks[1..]);
    }
  }

  // ---------------------------------------------------------------------
  // Smart split
  // ---------------------------------------------------------------------

  /** Ideal slide length in characters. */
  const Limit: nat := 220
  /** Length of the window searched for a sentence mark. */
  const Lookback: nat := Limit + 20

  predicate IsSentenceMark(c: char) { c == '.' || c == '!' || c == '?' }

  lemma SentenceMarkNotWs(c: char)
    requires IsSentenceMark(c)
    ensures !IsWs(c)
  {
  }

  /** The characters that `.` in a JavaScript regular expression does not match. */
  predicate IsLineTerminator(c: char)
  {
    c == '\n' || c == '\r' || c == '\U{2028}' || c == '\U{2029}'
  }

  /** Every line feed replaced by a space. */
  function LineFeedsToSpaces(s: String): (r: String)
    ensures |r| == |s| && '\n' !in r
    ensures forall i :: 0 <= i < |s| ==> r[i] == (if s[i] == '\n' then ' ' else s[i])
    ensures NonWs(r) == NonWs(s)
  {
    if s == [] then []
    else
      var c := if s[0] == '\n' then ' ' else s[0];
      var rest := LineFeedsToSpaces(s[1..]);
      assert ([c] + rest)[0] == c && ([c] + rest)[1..] == rest;
      [c] + rest
  }

  /** The text smart split works on: line feeds turned into spaces, trimmed. */
  function Normalize(raw: String): (text: String)
    ensures Trimmed(text) && '\n' !in text
    ensures NonWs(text) == NonWs(raw)
  {
    TrimNoLineFeed(LineFeedsToSpaces(raw));
    TrimKeepsContent(LineFeedsToSpaces(raw));
    Trim(LineFeedsToSpaces(raw))
  }

  /** The lookahead `(?!.*[.!?])` at position `j`: no sentence mark occurs
      from `j` up to the next line terminator. */
  predicate LookaheadClear(w: String, j: nat)
    requires j <= |w|
    decreases |w| - j
  {
    j == |w| || IsLineTerminator(w[j]) || (!IsSentenceMark(w[j]) && LookaheadClear(w, j + 1))
  }

  /** Index of the leftmost match of `/[.!?](?!.*[.!?])/` in `w` at or after `i`. */
  function MarkMatchFrom(w: String, i: nat): (r: Option<nat>)
    requires i <= |w|
    ensures r.Some? ==> i <= r.value < |w| && IsSentenceMark(w[r.value])
    decreases |w| - i
  {
    if i == |w| then None
    else if IsSentenceMark(w[i]) && LookaheadClear(w, i + 1) then Some(i)
    else MarkMatchFrom(w, i + 1)
  }

  /** `w.match(/[.!?](?!.*[.!?])/)`, reduced to the index of the match. */
  function MarkMatch(w: String): (r: Option<nat>)
    ensures r.Some? ==> r.value < |w| && IsSentenceMark(w[r.value])
  {
    MarkMatchFrom(w, 0)
  }

  /** Largest index of `w` holding a sentence mark, or -1. */
  function LastMark(w: String): (r: int)
    ensures -1 <= r < |w|
    ensures r >= 0 ==> IsSentenceMark(w[r])
    ensures forall k :: r < k < |w| ==> !IsSentenceMark(w[k])
  {
    if w == [] then -1
    else if IsSentenceMark(w[|w| - 1]) then |w| - 1
    else LastMark(w[..|w| - 1])
  }

  /** Largest index of `s` holding `c`, or -1. */
  function LastIndex(s: String, c: char): (r: int)
    ensures -1 <= r < |s|
    ensures r >= 0 ==> s[r] == c
    ensures forall k :: r < k < |s| ==> s[k] != c
  {
    if s == [] then -1
    else if s[|s| - 1] == c then |s| - 1
    else LastIndex(s[..|s| - 1], c)
  }

  /** `s.lastIndexOf(c, from)` for a one-character search string: the last
      occurrence at or before index `from`. */
  function LastIndexOf(s: String, c: char, from: nat): (r: int)
    ensures -1 <= r < |s| && r <= from
    ensures r >= 0 ==> s[r] == c
    ensures forall k :: r < k < |s| && k <= from ==> s[k] != c
  {
    LastIndex(s[..if from < |s| then from + 1 else |s|], c)
  }


  /** Where smart split cuts `rem`, which is trimmed and longer than the limit:
      just after the last sentence mark of the lookback window if that mark
      lies past the middle of the limit, else at the last space at or before
      the limit, else exactly at the limit. */
  function CutIndex(rem: String): (k: nat)
    requires |rem| > Limit && !IsWs(rem[0])
    ensures 1 <= k <= |rem| && k <= Lookback
  {
    var window := rem[..Min(Lookback, |rem|)];
    var m := MarkMatch(window);
    var split := if m.Some? && m.value > Limit / 2 then m.value + 1 else LastIndexOf(rem, ' ', Limit);
    if split == -1 then Limit else split
  }

  /** The chunks smart split emits for the trimmed text `rem`. */
  function SmartChunks(rem: String): (chunks: seq<String>)
    requires Trimmed(rem)
    ensures chunks == [] <==> rem == []
    decreases |rem|
  {
    if rem == [] then []
    else if |rem| <= Limit then [rem]
    else
      var k := CutIndex(rem);
      [Trim(rem[..k])] + SmartChunks(Trim(rem[k..]))
  }

  /** `handleSmartSplit`: the new document text, chunks joined by a blank line. */
  method SmartSplit(raw: String) returns (out: String)
    ensures out == Join(SmartChunks(Normalize(raw)), "\n\n")
    ensures NonWs(out) == NonWs(raw)
    ensures |Normalize(raw)| <= Limit ==> out == Normalize(raw)
  {
    var text := Trim(LineFeedsToSpaces(raw));
    var chunks: seq<String> := [];
    var remaining := text;
    while |remaining| > 0
      invariant Trimmed(remaining)
      invariant chunks + SmartChunks(remaining) == SmartChunks(text)
      decreases |remaining|
    {
      if |remaining| <= Limit {
        assert SmartChunks(remaining) == [remaining];
        chunks := chunks + [remaining];
        break;
      }
      // the cut: punctuation first, else the last space, else the limit
      var splitIndex: int := -1;
      var lookbackRange := remaining[..Min(Limit + 20, |remaining|)];
      var punctMatch := MarkMatch(lookbackRange);
      if punctMatch.Some? && punctMatch.value > Limit / 2 {
        splitIndex := punctMatch.value + 1;
      } else {
        splitIndex := LastIndexOf(remaining, ' ', Limit);
      }
      if splitIndex == -1 {
        splitIndex := Limit;
      }
      assert splitIndex == CutIndex(remaining);
      var head, rest := Trim(remaining[..splitIndex]), Trim(remaining[splitIndex..]);
      ghost var later := SmartChunks(rest);
      assert SmartChunks(remaining) == [head] + later;
      AppendAssoc(chunks, [head], later);
      chunks := chunks + [head];
      remaining := rest;
    }
    assert chunks == SmartChunks(text);
    out := Join(chunks, "\n\n");
    SmartSplitFacts(raw);
  }

  /** What SmartSplit promises beyond computing the joined chunks. */
  lemma SmartSplitFacts(raw: String)
    ensures NonWs(Join(SmartChunks(Normalize(raw)), "\n\n")) == NonWs(raw)
    ensures |Normalize(raw)| <= Limit ==> Join(SmartChunks(Normalize(raw)), "\n\n") == Normalize(raw)
  {
    var text := Normalize(raw);
    SmartChunksContent(text);
    JoinContent(SmartChunks(text), "\n\n");
    TrimKeepsContent(LineFeedsToSpaces(raw));
  }

  /** Smart split loses nothing but whitespace and reorders nothing. */
  lemma {:induction false} SmartChunksContent(rem: String)
    requires Trimmed(rem)
    ensures Content(SmartChunks(rem)) == NonWs(rem)
    decreases |rem|
  {
    if rem != [] && |rem| > Limit {
      var k := CutIndex(rem);
      SmartChunksContent(Trim(rem[k..]));
      TrimPairContent(rem[..k], rem[k..], SmartChunks(Trim(rem[k..])));
      SplitAt(rem, k);
    }
  }

  /** A cut trims both sides, which keeps their content. */
  lemma TrimPairContent(a: String, b: String, later: seq<String>)
    requires Content(later) == NonWs(Trim(b))
    ensures Content([Trim(a)] + later) == NonWs(a + b)
  {
    ContentCons(Trim(a), later);
    TrimKeepsContent(a);
    TrimKeepsContent(b);
    NonWsAppend(a, b);
  }

  /** A chunk as smart split emits it. */
  predicate WellCut(c: String)
  {
    c != [] && Trimmed(c) && |c| <= Lookback && (|c| > Limit ==> IsSentenceMark(c[|c| - 1]))
  }

  /** Every smart chunk is non-empty, trimmed and at most `Limit + 20` long;
      one longer than `Limit` ends with the sentence mark it was cut after. */
  lemma {:induction false} SmartChunksShape(rem: String)
    requires Trimmed(rem)
    ensures forall k :: 0 <= k < |SmartChunks(rem)| ==> WellCut(SmartChunks(rem)[k])
    decreases |rem|
  {
    if rem != [] && |rem| > Limit {
      var k := CutIndex(rem);
      var head := Trim(rem[..k]);
      var rest := Trim(rem[k..]);
      SmartChunksShape(rest);
      HeadWellCut(rem);
      assert SmartChunks(rem) == [head] + SmartChunks(rest);
      ConsWellCut(head, SmartChunks(rest));
    }
  }

  lemma ConsWellCut(head: String, later: seq<String>)
    requires WellCut(head) && forall k :: 0 <= k < |later| ==> WellCut(later[k])
    ensures forall k :: 0 <= k < |[head] + later| ==> WellCut(([head] + later)[k])
  {
  }

  /** The first chunk smart split cuts off is well cut. */
  lemma HeadWellCut(rem: String)
    requires Trimmed(rem) && |rem| > Limit
    ensures WellCut(Trim(rem[..CutIndex(rem)]))
  {
    var k := CutIndex(rem);
    var head := Trim(rem[..k]);
    assert |head| <= k;
    // the head keeps rem[0], which is not whitespace
    assert rem[..k][0] == rem[0];
    TrimKeepsFirst(rem[..k]);
    if |head| > Limit {
      CutAfterMark(rem);
      assert rem[..k][k - 1] == rem[k - 1];
      SentenceMarkNotWs(rem[k - 1]);
      TrimKeepsLast(rem[..k]);
    }
  }

  /** Trimming a text without line feeds leaves none. */
  lemma TrimNoLineFeed(t: String)
    requires '\n' !in t
    ensures '\n' !in Trim(t)
  {
    var r := Trim(t);
    forall c | c in r ensures c in t {
      var i :| 0 <= i < |r| && r[i] == c;
      assert r[i] == t[TrimOffset(t) + i];
    }
  }

  /** Both sides of a cut of a text without line feeds, trimmed, have none. */
  lemma CutNoLineFeed(rem: String, k: nat)
    requires '\n' !in rem && k <= |rem|
    ensures '\n' !in Trim(rem[..k]) && '\n' !in Trim(rem[k..])
  {
    assert forall c :: c in rem[..k] ==> c in rem;
    assert forall c :: c in rem[k..] ==> c in rem;
    TrimNoLineFeed(rem[..k]);
    TrimNoLineFeed(rem[k..]);
  }

  /** A text with no line feed gives smart chunks with no line feed. */
  lemma {:induction false} SmartChunksNoLineFeed(rem: String)
    requires Trimmed(rem) && '\n' !in rem
    ensures forall k :: 0 <= k < |SmartChunks(rem)| ==> '\n' !in SmartChunks(rem)[k]
    decreases |rem|
  {
    if rem != [] && |rem| > Limit {
      var k := CutIndex(rem);
      CutNoLineFeed(rem, k);
      var later := SmartChunks(Trim(rem[k..]));
      SmartChunksNoLineFeed(Trim(rem[k..]));
      assert SmartChunks(rem) == [Trim(rem[..k])] + later;
      ConsNoLineFeed(Trim(rem[..k]), later);
    }
  }

  lemma ConsNoLineFeed(head: String, later: seq<String>)
    requires '\n' !in head && forall k :: 0 <= k < |later| ==> '\n' !in later[k]
    ensures forall k :: 0 <= k < |[head] + later| ==> '\n' !in ([head] + later)[k]
  {
  }

  /** A cut past the limit is a sentence-mark cut: it falls just after the mark. */
  lemma CutAfterMark(rem: String)
    requires |rem| > Limit && !IsWs(rem[0])
    requires CutIndex(rem) > Limit
    ensures IsSentenceMark(rem[CutIndex(rem) - 1])
  {
  }

  /** Trimming keeps a first character that is not whitespace. */
  lemma TrimKeepsFirst(s: String)
    requires s != [] && !IsWs(s[0])
    ensures Trim(s) != [] && Trim(s)[0] == s[0]
  {
  }

  /** Trimming keeps a last character that is not whitespace. */
  lemma TrimKeepsLast(s: String)
    requires s != [] && !IsWs(s[|s| - 1])
    ensures Trim(s) != [] && Trim(s)[|Trim(s)| - 1] == s[|s| - 1]
  {
  }

  predicate NoLineTerminator(w: String)
  {
    forall i :: 0 <= i < |w| ==> !IsLineTerminator(w[i])
  }

  /** Without line terminators the lookahead sees to the end of the window. */
  lemma {:induction false} LookaheadClearIff(w: String, j: nat)
    requires j <= |w| && NoLineTerminator(w)
    ensures LookaheadClear(w, j) <==> forall k :: j <= k < |w| ==> !IsSentenceMark(w[k])
    decreases |w| - j
  {
    if j < |w| {
      LookaheadClearIff(w, j + 1);
    }
  }

  lemma {:induction false} MarkMatchFromIsLast(w: String, i: nat)
    requires i <= |w| && NoLineTerminator(w)
    ensures MarkMatchFrom(w, i) == if LastMark(w) >= i then Some(LastMark(w)) else None
    decreases |w| - i
  {
    if i < |w| {
      LookaheadClearIff(w, i + 1);
      MarkMatchFromIsLast(w, i + 1);
    }
  }

  /** On a window without line terminators the regular expression
      `/[.!?](?!.*[.!?])/` finds exactly the last sentence mark. */
  lemma MarkMatchIsLastMark(w: String)
    requires NoLineTerminator(w)
    ensures MarkMatch(w) == if LastMark(w) >= 0 then Some(LastMark(w)) else None
  {
    MarkMatchFromIsLast(w, 0);
  }

  /** The cut rule in full: just after the last sentence mark of the
      lookback window when it lies past index `Limit / 2`; otherwise at the
      last space at or before index `Limit`; otherwise at `Limit`. */
  predicate CutRule(rem: String)
    requires |rem| > Limit && !IsWs(rem[0])
  {
    var window := rem[..Min(Lookback, |rem|)];
    var p := LastMark(window);
    var k := CutIndex(rem);
    (p > Limit / 2 ==> k == p + 1) &&
    (p <= Limit / 2 && (exists j :: 0 <= j <= Limit && rem[j] == ' ') ==>
       k <= Limit && rem[k] == ' ' && forall j :: k < j <= Limit ==> rem[j] != ' ') &&
    (p <= Limit / 2 && (forall j :: 0 <= j <= Limit ==> rem[j] != ' ') ==> k == Limit)
  }

  /** The cut follows the rule whenever the lookback window has no line
      terminator (always so after line feeds became spaces, unless the text
      holds a carriage return or a Unicode line or paragraph separator). */
  lemma CutIndexCases(rem: String)
    requires |rem| > Limit && !IsWs(rem[0])
    requires NoLineTerminator(rem[..Min(Lookback, |rem|)])
    ensures CutRule(rem)
  {
    MarkMatchIsLastMark(rem[..Min(Lookback, |rem|)]);
  }

  /** Every cut smart split makes of `rem`, down to the last chunk, follows
      the cut rule. */
  predicate AllCutsByRule(rem: String)
    requires Trimmed(rem)
    decreases |rem|
  {
    rem == [] || |rem| <= Limit ||
    (CutRule(rem) && AllCutsByRule(Trim(rem[CutIndex(rem)..])))
  }

  /** Slices of a text without line terminators have none. */
  lemma SliceNoLineTerminator(s: String, i: nat, j: nat)
    requires NoLineTerminator(s) && i <= j <= |s|
    ensures NoLineTerminator(s[i..j])
  {
    assert forall k :: 0 <= k < j - i ==> s[i..j][k] == s[i + k];
  }

  /** Trimming a text without line terminators leaves none. */
  lemma TrimNoLineTerminator(s: String)
    requires NoLineTerminator(s)
    ensures NoLineTerminator(Trim(s))
  {
    SliceNoLineTerminator(s, TrimOffset(s), TrimOffset(s) + |Trim(s)|);
  }

  /** Without line terminators, every cut of smart split follows the rule. */
  lemma {:induction false} CutsByRule(rem: String)
    requires Trimmed(rem) && NoLineTerminator(rem)
    ensures AllCutsByRule(rem)
    decreases |rem|
  {
    if rem != [] && |rem| > Limit {
      var k := CutIndex(rem);
      SliceNoLineTerminator(rem, 0, Min(Lookback, |rem|));
      CutIndexCases(rem);
      SliceNoLineTerminator(rem, k, |rem|);
      TrimNoLineTerminator(rem[k..]);
      CutsByRule(Trim(rem[k..]));
    }
  }

  /** Smart split cuts every chunk by the rule, provided the document holds
      no carriage return and no Unicode line or paragraph separator: its
      line feeds have become spaces before any window is searched. */
  lemma SmartSplitCutsByRule(raw: String)
    requires forall i :: 0 <= i < |raw| ==> raw[i] != '\r' && raw[i] != '\U{2028}' && raw[i] != '\U{2029}'
    ensures AllCutsByRule(Normalize(raw))
  {
    var spaced := LineFeedsToSpaces(raw);
    assert NoLineTerminator(spaced);
    TrimNoLineTerminator(spaced);
    CutsByRule(Normalize(raw));
  }

  // ---------------------------------------------------------------------
  // Smart split output read back by paragraph mode
  // ---------------------------------------------------------------------

  /** A prefix with no blank run that does not end in a line feed simply
      extends the first piece: a lone line feed never splits. */
  lemma {:induction false} SplitAfterPlainPrefix(a: String, s: String)
    requires NoBlankRun(a) && (a != [] ==> a[|a| - 1] != '\n')
    ensures SplitBlankRuns(a + s) ==
            [a + SplitBlankRuns(s)[0]] + SplitBlankRuns(s)[1..]
    decreases |a|
  {
    var tail := SplitBlankRuns(s);
    if a == [] {
      assert a + s == s && a + tail[0] == tail[0];
      HeadTail(tail);
    } else {
      assert (a + s)[0] == a[0] && (a + s)[1..] == a[1..] + s;
      assert |a| >= 2 ==> !(a[0] == '\n' && a[1] == '\n');
      assert !StartsWithBlankRun(a + s);
      NoBlankRunSlice(a, 1, |a|);
      SplitAfterPlainPrefix(a[1..], s);
      var rest := SplitBlankRuns(a[1..] + s);
      assert rest[0] == a[1..] + tail[0];
      assert rest[1..] == tail[1..];
      AppendAssoc([a[0]], a[1..], tail[0]);
      assert [a[0]] + a[1..] == a;
    }
  }

  /** A blank line followed by text starts a new piece. */
  lemma SplitAtBlankLine(t: String)
    requires t != [] && t[0] != '\n'
    ensures SplitBlankRuns("\n\n" + t) == [[]] + SplitBlankRuns(t)
  {
    var s := "\n\n" + t;
    assert StartsWithBlankRun(s);
    assert s[1..] == "\n" + t && s[1..][1..] == t;
    assert DropLineFeeds(s) == DropLineFeeds(s[1..]) == DropLineFeeds(t) == t;
  }

  /** A chunk as paragraph mode emits it: non-empty, trimmed, and with no
      blank line inside (single line feeds are allowed). */
  predicate PlainChunk(c: String)
  {
    c != [] && Trimmed(c) && NoBlankRun(c)
  }

  lemma {:induction false} SplitJoinBlank(cs: seq<String>)
    requires |cs| >= 1 && forall k :: 0 <= k < |cs| ==> PlainChunk(cs[k])
    ensures SplitBlankRuns(Join(cs, "\n\n")) == cs
  {
    if |cs| == 1 {
      SplitAfterPlainPrefix(cs[0], []);
      assert cs[0] + [] == cs[0];
      assert SplitBlankRuns([]) == [[]];
    } else {
      var t := Join(cs[1..], "\n\n");
      SplitJoinBlank(cs[1..]);
      JoinStartsWith(cs[1..]);
      SplitJoinStep(cs[0], t, cs[1..]);
      HeadTail(cs);
    }
  }

  /** A chunk, a blank line, then text that splits into `rest`. */
  lemma SplitJoinStep(c: String, t: String, rest: seq<String>)
    requires NoBlankRun(c) && (c != [] ==> c[|c| - 1] != '\n')
    requires t != [] && t[0] != '\n' && SplitBlankRuns(t) == rest
    ensures SplitBlankRuns(c + "\n\n" + t) == [c] + rest
  {
    SplitAtBlankLine(t);
    AppendAssoc(c, "\n\n", t);
    SplitAfterPlainPrefix(c, "\n\n" + t);
    var tail := [[]] + rest;
    assert tail[0] == [] && tail[1..] == rest;
    assert c + [] == c;
  }

  lemma {:induction false} JoinStartsWith(cs: seq<String>)
    requires |cs| >= 1 && cs[0] != []
    ensures Join(cs, "\n\n") != [] && Join(cs, "\n\n")[0] == cs[0][0]
  {
  }

  lemma {:induction false} TrimNonEmptyOfPlain(cs: seq<String>)
    requires forall k :: 0 <= k < |cs| ==> PlainChunk(cs[k])
    ensures TrimNonEmpty(cs) == cs
  {
    if cs != [] {
      TrimOfTrimmed(cs[0]);
      TrimNonEmptyOfPlain(cs[1..]);
      HeadTail(cs);
    }
  }

  /** Non-empty trimmed chunks with no blank line inside, joined by blank
      lines, come back unchanged from paragraph mode. */
  lemma ParagraphsOfJoin(cs: seq<String>)
    requires forall k :: 0 <= k < |cs| ==> PlainChunk(cs[k])
    ensures Paragraphs(Join(cs, "\n\n")) == cs
  {
    if cs == [] {
      assert SplitBlankRuns([]) == [[]];
    } else {
      SplitJoinBlank(cs);
      TrimNonEmptyOfPlain(cs);
    }
  }

  /** The text smart split writes back re-enters paragraph mode as exactly the
      smart chunks: one slide per chunk, in order. */
  lemma SmartSplitReadBack(raw: String)
    ensures Paragraphs(Join(SmartChunks(Normalize(raw)), "\n\n")) == SmartChunks(Normalize(raw))
  {
    var spaced := LineFeedsToSpaces(raw);
    var text := Normalize(raw);
    assert '\n' !in text by {
      assert forall c :: c in text ==> c in spaced;
    }
    SmartChunksShape(text);
    SmartChunksNoLineFeed(text);
    var chunks := SmartChunks(text);
    forall k | 0 <= k < |chunks| ensures NoBlankRun(chunks[k]) {
      NoLineFeedNoBlankRun(chunks[k]);
    }
    ParagraphsOfJoin(chunks);
  }

  /** A text without line feeds has no blank run. */
  lemma NoLineFeedNoBlankRun(t: String)
    requires '\n' !in t
    ensures NoBlankRun(t)
  {
    forall i | 0 <= i < |t| - 1 ensures t[i] != '\n' {
      assert t[i] in t;
    }
  }

  /** Paragraph mode applied to its own output, joined back by blank lines,
      gives the same slides. */
  lemma ParagraphsIdempotent(raw: String)
    ensures Paragraphs(Join(Paragraphs(raw), "\n\n")) == Paragraphs(raw)
  {
    ParagraphsWellFormed(raw);
    ParagraphsOfJoin(Paragraphs(raw));
  }

  /** Text without a blank run is a single piece: line feeds on their own
      never split. */
  lemma {:induction false} SplitOfNoBlankRun(s: String)
    requires NoBlankRun(s)
    ensures SplitBlankRuns(s) == [s]
    decreases |s|
  {
    if s != [] {
      assert |s| >= 2 ==> !(s[0] == '\n' && s[1] == '\n');
      NoBlankRunSlice(s, 1, |s|);
      SplitOfNoBlankRun(s[1..]);
      HeadTail(s);
    }
  }

  /** `n` line feeds. */
  function LineFeeds(n: nat): (r: String)
    ensures |r| == n && forall i :: 0 <= i < n ==> r[i] == '\n'
  {
    if n == 0 then [] else "\n" + LineFeeds(n - 1)
  }

  /** A run of line feeds is dropped whole, up to the next other character. */
  lemma {:induction false} DropLineFeedsRun(n: nat, b: String)
    requires b != [] ==> b[0] != '\n'
    ensures DropLineFeeds(LineFeeds(n) + b) == b
  {
    if n > 0 {
      TailOfAppend(LineFeeds(n), b);
      assert LineFeeds(n)[1..] == LineFeeds(n - 1);
      DropLineFeedsRun(n - 1, b);
    } else {
      assert LineFeeds(n) + b == b;
    }
  }

  /** `split(/\n\n+/)` cuts at every maximal run of two or more line feeds:
      the text before the run is one piece, and splitting goes on after it. */
  lemma SplitAtRun(a: String, n: nat, b: String)
    requires NoBlankRun(a) && (a != [] ==> a[|a| - 1] != '\n')
    requires n >= 2 && (b != [] ==> b[0] != '\n')
    ensures SplitBlankRuns(a + LineFeeds(n) + b) == [a] + SplitBlankRuns(b)
  {
    var run := LineFeeds(n) + b;
    assert StartsWithBlankRun(run);
    DropLineFeedsRun(n, b);
    assert SplitBlankRuns(run) == [[]] + SplitBlankRuns(b);
    SplitAfterPlainPrefix(a, run);
    AppendAssoc(a, LineFeeds(n), b);
    assert a + [] == a;
  }

  /** The slide a piece becomes: its trimmed text, unless that is empty. */
  function Kept(p: String): (r: seq<String>)
    ensures |r| <= 1
  {
    if Trim(p) == [] then [] else [Trim(p)]
  }

  /** Paragraph mode at a blank run: the piece before the run gives at most
      one slide, and the rest of the document gives the remaining slides. */
  lemma ParagraphsAtRun(a: String, n: nat, b: String)
    requires NoBlankRun(a) && (a != [] ==> a[|a| - 1] != '\n')
    requires n >= 2 && (b != [] ==> b[0] != '\n')
    ensures Paragraphs(a + LineFeeds(n) + b) == Kept(a) + Paragraphs(b)
  {
    SplitAtRun(a, n, b);
    var pieces := [a] + SplitBlankRuns(b);
    assert pieces[0] == a && pieces[1..] == SplitBlankRuns(b);
  }

  /** A document with no blank run gives at most one slide: itself, trimmed. */
  lemma ParagraphsOfNoBlankRun(s: String)
    requires NoBlankRun(s)
    ensures Paragraphs(s) == Kept(s)
  {
    SplitOfNoBlankRun(s);
    assert [s][1..] == [];
    assert Kept(s) + [] == Kept(s);
  }

  /** A document with no blank line is one slide: itself, trimmed. */
  lemma ParagraphsOfOneLine(t: String)
    requires t != [] && Trimmed(t) && NoBlankRun(t)
    ensures Paragraphs(t) == [t]
  {
    ParagraphsOfJoin([t]);
  }

  lemma ParagraphsOfHelloWorld()
    ensures Paragraphs("HELLO WORLD") == ["HELLO WORLD"]
  {
    var t := "HELLO WORLD";
    assert Trimmed(t);
    NoLineFeedNoBlankRun(t);
    ParagraphsOfOneLine(t);
  }

  /** A blank line separates two slides. */
  lemma ParagraphsOfTwoBlocks()
    ensures Paragraphs("A.\n\nB.") == ["A.", "B."]
  {
    assert Join(["A.", "B."], "\n\n") == "A.\n\nB.";
    ParagraphsOfJoin(["A.", "B."]);
  }

  /** A single line feed stays inside its slide. */
  lemma ParagraphsOfTwoLines()
    ensures Paragraphs("A\nB") == ["A\nB"]
  {
    var t := "A\nB";
    assert Trimmed(t) && NoBlankRun(t);
    ParagraphsOfOneLine(t);
  }
}
