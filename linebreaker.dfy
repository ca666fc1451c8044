/** The Line Breaker: greedy word wrap of one upper-cased slide text against
    a pixel width (App.js:52-68). Text measurement is the canvas context's
    `measureText(...).width` for the body font, passed in as a function. */
module LineBreaker {
  import opened Text

  /** Widest line in pixels: the 1080-pixel canvas less a 100-pixel margin
      on each side. */
  const MaxWidth: real := 880.0

  /** Pixel width of a string in the current font. */
  type Measure = String -> real

  /** `s.split(' ')`: the maximal space-free pieces, so that runs of spaces
      give empty words; there is always at least one word. */
  function Words(s: String): (ws: seq<String>)
    ensures |ws| >= 1
    ensures forall k :: 0 <= k < |ws| ==> ' ' !in ws[k]
    ensures s != [] && s[0] != ' ' ==> ws[0] != [] && ws[0][0] == s[0]
  {
    if s == [] then [[]]
    else
      var rest := Words(s[1..]);
      if s[0] == ' ' then [[]] + rest
      else [[s[0]] + rest[0]] + rest[1..]
  }

  /** Splitting on spaces loses nothing: the words joined by single spaces
      give the text back. */
  lemma {:induction false} JoinWords(s: String)
    ensures Join(Words(s), " ") == s
  {
    if s != [] {
      var rest := Words(s[1..]);
      JoinWords(s[1..]);
      if s[0] == ' ' {
        assert Words(s) == [[]] + rest;
        JoinCons([], rest, " ");
        assert [] + " " + s[1..] == s;
      } else {
        JoinExtendFirst([s[0]], rest, " ");
        HeadTail(rest);
        assert [s[0]] + s[1..] == s;
      }
    }
  }

  /** And conversely: space-free words joined by spaces split back into the
      same words. */
  lemma {:induction false} WordsOfJoin(ws: seq<String>)
    requires |ws| >= 1 && forall k :: 0 <= k < |ws| ==> ' ' !in ws[k]
    ensures Words(Join(ws, " ")) == ws
  {
    if |ws| == 1 {
      WordsOfPlain(ws[0], []);
      assert ws[0] + [] == ws[0];
    } else {
      var t := Join(ws[1..], " ");
      WordsOfJoin(ws[1..]);
      WordsOfPlain(ws[0], " " + t);
      var tail := Words(" " + t);
      assert (" " + t)[1..] == t;
      assert tail == [[]] + ws[1..];
      AppendAssoc(ws[0], " ", t);
      assert ws[0] + tail[0] == ws[0];
      assert tail[1..] == ws[1..];
      HeadTail(ws);
    }
  }

  /** A space-free prefix extends the first word. */
  lemma {:induction false} WordsOfPlain(a: String, s: String)
    requires ' ' !in a
    ensures Words(a + s) == [a + Words(s)[0]] + Words(s)[1..]
    decreases |a|
  {
    var tail := Words(s);
    if a == [] {
      assert a + s == s && a + tail[0] == tail[0];
      HeadTail(tail);
    } else {
      assert (a + s)[0] == a[0] && (a + s)[1..] == a[1..] + s;
      WordsOfPlain(a[1..], s);
      AppendAssoc([a[0]], a[1..], tail[0]);
      assert [a[0]] + a[1..] == a;
    }
  }

  lemma JoinCons(x: String, rest: seq<String>, sep: String)
    requires |rest| >= 1
    ensures Join([x] + rest, sep) == x + sep + Join(rest, sep)
  {
    assert ([x] + rest)[1..] == rest;
  }

  lemma JoinExtendFirst(x: String, rest: seq<String>, sep: String)
    requires |rest| >= 1
    ensures Join([x + rest[0]] + rest[1..], sep) == x + Join(rest, sep)
  {
    var r := [x + rest[0]] + rest[1..];
    if |rest| > 1 {
      assert r[1..] == rest[1..];
      AppendAssoc(x, rest[0], sep);
      AppendAssoc(x, rest[0] + sep, Join(rest[1..], sep));
      AppendAssoc(x + rest[0], sep, Join(rest[1..], sep));
      AppendAssoc(rest[0], sep, Join(rest[1..], sep));
    }
  }

  /** The greedy wrap, continued from a line `current` under construction
      over the remaining `words` (the body of the `forEach` as a fold). */
  function WrapFrom(words: seq<String>, current: String, measure: Measure): (lines: seq<String>)
    ensures 1 <= |lines| <= |words| + 1
    decreases |words|
  {
    if words == [] then [current]
    else
      var testLine := current + words[0] + " ";
      if measure(testLine) > MaxWidth then [current] + WrapFrom(words[1..], words[0] + " ", measure)
      else WrapFrom(words[1..], testLine, measure)
  }

  /** The lines the slide draws for `upperText`. */
  function Wrapped(upperText: String, measure: Measure): (lines: seq<String>)
    ensures 1 <= |lines| <= |Words(upperText)| + 1
  {
    WrapFrom(Words(upperText), [], measure)
  }

  /** The wrap loop of `draw()`: `currentLine` always ends with a space, and
      a word that would make it too wide starts a new line. */
  method WrapText(upperText: String, measure: Measure) returns (lines: seq<String>)
    ensures lines == Wrapped(upperText, measure)
  {
    var words := Words(upperText);
    lines := [];
    var currentLine: String := [];
    for i := 0 to |words|
      invariant lines + WrapFrom(words[i..], currentLine, measure) == WrapFrom(words, [], measure)
    {
      var word := words[i];
      var testLine := currentLine + word + " ";
      assert words[i..][0] == word && words[i..][1..] == words[i + 1..];
      if measure(testLine) > MaxWidth {
        AppendAssoc(lines, [currentLine], WrapFrom(words[i + 1..], word + " ", measure));
        lines := lines + [currentLine];
        currentLine := word + " ";
      } else {
        currentLine := testLine;
      }
    }
    assert words[|words|..] == [];
    lines := lines + [currentLine];
  }

  /** The words each followed by one space, run together. */
  function Spaced(words: seq<String>): (r: String)
  {
    if words == [] then [] else words[0] + " " + Spaced(words[1..])
  }

  lemma {:induction false} SpacedIsJoinPlusSpace(words: seq<String>)
    requires |words| >= 1
    ensures Spaced(words) == Join(words, " ") + " "
  {
    if |words| > 1 {
      SpacedIsJoinPlusSpace(words[1..]);
      AppendAssoc(words[0] + " ", Join(words[1..], " "), " ");
    } else {
      assert words[1..] == [];
    }
  }

  /** Wrapping only cuts: the lines run together give the line under
      construction followed by every word and its space. */
  lemma {:induction false} WrapFromConcat(words: seq<String>, current: String, measure: Measure)
    ensures Concat(WrapFrom(words, current, measure)) == current + Spaced(words)
    decreases |words|
  {
    if words == [] {
      assert Concat([current]) == current + Concat([]);
    } else {
      var w := words[0];
      var testLine := current + w + " ";
      WrapFromConcat(words[1..], w + " ", measure);
      WrapFromConcat(words[1..], testLine, measure);
      var rest := Spaced(words[1..]);
      if measure(testLine) > MaxWidth {
        var tail := WrapFrom(words[1..], w + " ", measure);
        ConcatAppend([current], tail);
        assert Concat([current]) == current + Concat([]);
        AppendAssoc(current, w + " ", rest);
      } else {
        AppendAssoc(current, w + " ", rest);
        AppendAssoc(current, w, " ");
      }
    }
  }

  /** The wrapped lines run together are the text with one trailing space. */
  lemma WrappedConcat(upperText: String, measure: Measure)
    ensures Concat(Wrapped(upperText, measure)) == upperText + " "
  {
    WrapFromConcat(Words(upperText), [], measure);
    SpacedIsJoinPlusSpace(Words(upperText));
    JoinWords(upperText);
    assert [] + Spaced(Words(upperText)) == Spaced(Words(upperText));
  }

  /** A single word and its trailing space. */
  predicate LoneWord(line: String)
  {
    |line| >= 1 && line[|line| - 1] == ' ' && ' ' !in line[..|line| - 1]
  }

  /** What a line may be: within the width, the empty line, or one word
      that alone is too wide. */
  predicate Acceptable(line: String, measure: Measure)
  {
    measure(line) <= MaxWidth || line == [] || LoneWord(line)
  }

  lemma {:induction false} WrapFromAcceptable(words: seq<String>, current: String, measure: Measure)
    requires forall k :: 0 <= k < |words| ==> ' ' !in words[k]
    requires Acceptable(current, measure)
    ensures forall k :: 0 <= k < |WrapFrom(words, current, measure)| ==>
              Acceptable(WrapFrom(words, current, measure)[k], measure)
    decreases |words|
  {
    if words != [] {
      var w := words[0];
      var testLine := current + w + " ";
      if measure(testLine) > MaxWidth {
        assert (w + " ")[..|w|] == w;
        WrapFromAcceptable(words[1..], w + " ", measure);
        var lines := WrapFrom(words, current, measure);
        var tail := WrapFrom(words[1..], w + " ", measure);
        forall k | 0 <= k < |lines| ensures Acceptable(lines[k], measure) {
          if k > 0 { assert lines[k] == tail[k - 1]; }
        }
      } else {
        WrapFromAcceptable(words[1..], testLine, measure);
      }
    }
  }

  /** Every wrapped line fits the width, or is empty, or is one word alone:
      the only overflow allowed is a word too wide for any line. */
  lemma WrappedAcceptable(upperText: String, measure: Measure)
    ensures forall k :: 0 <= k < |Wrapped(upperText, measure)| ==>
              Acceptable(Wrapped(upperText, measure)[k], measure)
  {
    WrapFromAcceptable(Words(upperText), [], measure);
  }

  /** The first line extends the line under construction. */
  lemma {:induction false} WrapFromFirstExtends(words: seq<String>, current: String, measure: Measure)
    ensures var first := WrapFrom(words, current, measure)[0];
            |current| <= |first| && first[..|current|] == current
    decreases |words|
  {
    if words != [] {
      var w := words[0];
      var testLine := current + w + " ";
      if measure(testLine) <= MaxWidth {
        WrapFromFirstExtends(words[1..], testLine, measure);
        var first := WrapFrom(words, current, measure)[0];
        assert first[..|current|] == first[..|testLine|][..|current|];
      }
    }
  }

  predicate EndsWithSpace(line: String)
  {
    line != [] && line[|line| - 1] == ' '
  }

  /** Lines after the one under construction are non-empty and end with a space. */
  lemma {:induction false} WrapFromLaterLines(words: seq<String>, current: String, measure: Measure)
    requires current != [] ==> current[|current| - 1] == ' '
    ensures forall k :: 1 <= k < |WrapFrom(words, current, measure)| ==> EndsWithSpace(WrapFrom(words, current, measure)[k])
    ensures current != [] ==> EndsWithSpace(WrapFrom(words, current, measure)[0])
    decreases |words|
  {
    if words != [] {
      var w := words[0];
      var testLine := current + w + " ";
      var lines := WrapFrom(words, current, measure);
      if measure(testLine) > MaxWidth {
        var tail := WrapFrom(words[1..], w + " ", measure);
        WrapFromLaterLines(words[1..], w + " ", measure);
        forall k | 1 <= k < |lines| ensures EndsWithSpace(lines[k]) {
          assert lines[k] == tail[k - 1];
        }
      } else {
        WrapFromLaterLines(words[1..], testLine, measure);
      }
    }
  }

  /** The source's quirk: the first line is empty exactly when the first word
      alone is already too wide; no later line is ever empty. */
  lemma FirstLineEmptyIff(upperText: String, measure: Measure)
    ensures var lines := Wrapped(upperText, measure);
            (lines[0] == [] <==> measure(Words(upperText)[0] + " ") > MaxWidth) &&
            forall k :: 1 <= k < |lines| ==> lines[k] != []
  {
    var words := Words(upperText);
    var empty: String := [];
    WrapFromLaterLines(words, empty, measure);
    var w := words[0];
    var lines := WrapFrom(words, empty, measure);
    assert Wrapped(upperText, measure) == lines;
    assert forall k :: 1 <= k < |lines| ==> lines[k] != [] && lines[k][|lines[k]| - 1] == ' ';
    assert [] + w + " " == w + " ";
    if measure(w + " ") <= MaxWidth {
      WrapFromLaterLines(words[1..], w + " ", measure);
      assert lines == WrapFrom(words[1..], w + " ", measure);
    }
  }

  /** The text before the first space of a line. */
  function FirstWord(line: String): (w: String)
    ensures ' ' !in w
  {
    if line == [] || line[0] == ' ' then [] else [line[0]] + FirstWord(line[1..])
  }

  lemma {:induction false} FirstWordOf(w: String, line: String)
    requires ' ' !in w && |w| < |line| && line[..|w| + 1] == w + " "
    ensures FirstWord(line) == w
  {
    if w != [] {
      assert line[1..][..|w[1..]| + 1] == w[1..] + " ";
      FirstWordOf(w[1..], line[1..]);
      HeadTail(w);
    }
  }

  /** Greedy: every line break was forced, because the next line's first
      word would not have fitted on the line before it. */
  lemma {:induction false} WrapFromGreedy(words: seq<String>, current: String, measure: Measure)
    requires forall k :: 0 <= k < |words| ==> ' ' !in words[k]
    ensures var lines := WrapFrom(words, current, measure);
            forall k :: 0 <= k < |lines| - 1 ==>
              measure(lines[k] + FirstWord(lines[k + 1]) + " ") > MaxWidth
    decreases |words|
  {
    if words != [] {
      var w := words[0];
      var testLine := current + w + " ";
      var lines := WrapFrom(words, current, measure);
      if measure(testLine) > MaxWidth {
        var tail := WrapFrom(words[1..], w + " ", measure);
        WrapFromGreedy(words[1..], w + " ", measure);
        WrapFromFirstExtends(words[1..], w + " ", measure);
        FirstWordOf(w, tail[0]);
        forall k | 0 <= k < |lines| - 1 ensures measure(lines[k] + FirstWord(lines[k + 1]) + " ") > MaxWidth {
          if k > 0 { assert lines[k] == tail[k - 1] && lines[k + 1] == tail[k]; }
        }
      } else {
        WrapFromGreedy(words[1..], testLine, measure);
        assert lines == WrapFrom(words[1..], testLine, measure);
      }
    }
  }

  /** The wrapped lines of a slide text: at least one line, at most one more
      than there are words, every break forced by the width. */
  lemma WrappedGreedy(upperText: String, measure: Measure)
    ensures var lines := Wrapped(upperText, measure);
            1 <= |lines| <= |Words(upperText)| + 1 &&
            forall k :: 0 <= k < |lines| - 1 ==>
              measure(lines[k] + FirstWord(lines[k + 1]) + " ") > MaxWidth
  {
    WrapFromGreedy(Words(upperText), [], measure);
    assert Wrapped(upperText, measure) == WrapFrom(Words(upperText), [], measure);
  }
}
