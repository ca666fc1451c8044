/** One slide as the canvas draws it (App.js:17-80): a white background, an
    optional signature band, the wrapped body text centred vertically, and
    the page number. Drawing is modelled as a display list: the sequence of
    drawing commands issued, with their text, position, font and colour. */
module Slide {
  import opened Text
  import LineBreaker

  /** Side of the square canvas in pixels. */
  const Size: nat := 1080

  /** Horizontal centre of the canvas; every text is centre-aligned on it. */
  const Center: real := 540.0

  const SignatureY: real := 960.0
  const RuleY: real := 935.0
  const PageNumberY: real := 1020.0

  /** A canvas font `bold <px>px <family>`. */
  datatype Font = Font(weight: String, px: nat, family: String)

  datatype Baseline = Alphabetic | Middle

  datatype Command =
    | Fill(color: String)
    | Label(text: String, x: real, y: real, font: Font, color: String, baseline: Baseline)
    | Rule(x1: real, x2: real, y: real, color: String, lineWidth: nat)
    | Watermark

  const White: String := "#FFFFFF"
  const Black: String := "#000000"
  const Grey: String := "#666666"
  const LightGrey: String := "#EEEEEE"

  const SignatureFont: Font := Font("bold", 35, "sans-serif")
  const PageFont: Font := Font("bold", 24, "sans-serif")

  function BodyFont(fontSize: nat, family: String): Font
  {
    Font("bold", fontSize, family)
  }

  /** Pixel width of a string drawn in a given font. */
  type Metrics = Font -> LineBreaker.Measure

  /** A drawing surface: its size and what has been drawn on it since it was
      last cleared. */
  class Canvas {
    var width: nat
    var height: nat
    var commands: seq<Command>

    /** A fresh canvas element has the default size 300 by 150 and is blank. */
    constructor()
      ensures width == 300 && height == 150 && commands == []
    {
      width := 300;
      height := 150;
      commands := [];
    }

    /** The free-tier watermark, drawn over whatever is on the canvas. Its
        geometry is not modelled. */
    method ApplyWatermark()
      modifies this
      ensures commands == old(commands) + [Watermark]
      ensures width == old(width) && height == old(height)
    {
      commands := commands + [Watermark];
    }
  }

  function LineHeight(fontSize: nat): real
  {
    fontSize as real * 1.15
  }

  /** The height of `k` lines of height `lh`, `k * lh`, written as repeated
      addition so that no product of two unknowns enters the proofs. */
  function Stacked(k: nat, lh: real): real
  {
    if k == 0 then 0.0 else Stacked(k - 1, lh) + lh
  }

  lemma {:induction false} StackedIsProduct(k: nat, lh: real)
    ensures Stacked(k, lh) == k as real * lh
  {
    if k > 0 {
      StackedIsProduct(k - 1, lh);
      assert k as real * lh == (k - 1) as real * lh + lh;
    }
  }

  lemma {:induction false} StackedAdd(a: nat, b: nat, lh: real)
    ensures Stacked(a, lh) + Stacked(b, lh) == Stacked(a + b, lh)
  {
    if b > 0 { StackedAdd(a, b - 1, lh); }
  }

  /** Middle of the first body line: the block of `n` lines is centred on
      the canvas, and each line is drawn at its own middle. */
  function StartY(n: nat, lh: real): real
  {
    (Size as real - Stacked(n, lh)) / 2.0 + lh / 2.0
  }

  function LineY(i: nat, n: nat, lh: real): real
  {
    StartY(n, lh) + Stacked(i, lh)
  }

  /** The signature band is drawn only for a signature with some
      non-whitespace content. */
  predicate HasSignature(signature: String)
  {
    Trim(signature) != []
  }

  function SignatureBand(signature: String, upper: String -> String): (band: seq<Command>)
    ensures |band| == (if HasSignature(signature) then 2 else 0)
    ensures HasSignature(signature) ==> band[0].Label? && band[0].text == upper(signature) && band[1].Rule?
  {
    if HasSignature(signature) then
      [Label(upper(signature), Center, SignatureY, SignatureFont, Grey, Alphabetic),
       Rule(Center - 100.0, Center + 100.0, RuleY, LightGrey, 2)]
    else []
  }

  function BodyLabel(line: String, i: nat, n: nat, fontSize: nat, family: String): Command
  {
    Label(Trim(line), Center, LineY(i, n, LineHeight(fontSize)), BodyFont(fontSize, family), Black, Middle)
  }

  function BodyLabels(lines: seq<String>, fontSize: nat, family: String): (labels: seq<Command>)
    ensures |labels| == |lines|
  {
    seq(|lines|, i requires 0 <= i < |lines| => BodyLabel(lines[i], i, |lines|, fontSize, family))
  }

  function PageNumber(index: nat): Command
  {
    Label(DecimalString(index + 1), Center, PageNumberY, PageFont, Black, Middle)
  }

  /** The body lines of the slide: its text upper-cased, wrapped in the body font. */
  function Lines(text: String, fontSize: nat, family: String, metrics: Metrics, upper: String -> String): seq<String>
  {
    LineBreaker.Wrapped(upper(text), metrics(BodyFont(fontSize, family)))
  }

  /** What `draw()` puts on the canvas for given body lines, in order. */
  function Layout(lines: seq<String>, index: nat, fontSize: nat, family: String, signature: String,
                  upper: String -> String): seq<Command>
  {
    [Fill(White)] + SignatureBand(signature, upper) + BodyLabels(lines, fontSize, family) + [PageNumber(index)]
  }

  /** Everything `draw()` puts on the canvas, in order. */
  function DisplayList(text: String, index: nat, fontSize: nat, family: String, signature: String,
                       metrics: Metrics, upper: String -> String): (commands: seq<Command>)
    ensures Watermark !in commands
  {
    LayoutUnmarked(Lines(text, fontSize, family, metrics, upper), index, fontSize, family, signature, upper);
    Layout(Lines(text, fontSize, family, metrics, upper), index, fontSize, family, signature, upper)
  }

  /** The `lines.forEach` of `draw()`: each line trimmed and drawn at its
      own height, the block centred vertically. */
  method DrawLines(canvas: Canvas, lines: seq<String>, fontSize: nat, family: String)
    modifies canvas
    ensures canvas.width == old(canvas.width) && canvas.height == old(canvas.height)
    ensures canvas.commands == old(canvas.commands) + BodyLabels(lines, fontSize, family)
  {
    var font := BodyFont(fontSize, family);
    var lineHeight := LineHeight(fontSize);
    var totalHeight := |lines| as real * lineHeight;
    var startY := (Size as real - totalHeight) / 2.0 + lineHeight / 2.0;
    StackedIsProduct(|lines|, lineHeight);
    ghost var head := canvas.commands;
    ghost var labels := BodyLabels(lines, fontSize, family);
    for i := 0 to |lines|
      invariant canvas.width == old(canvas.width) && canvas.height == old(canvas.height)
      invariant canvas.commands == head + labels[..i]
    {
      var y := startY + i as real * lineHeight;
      StackedIsProduct(i, lineHeight);
      var drawn := Label(Trim(lines[i]), Center, y, font, Black, Middle);
      assert drawn == labels[i];
      PrefixExtend(labels, i);
      AppendAssoc(head, labels[..i], [drawn]);
      canvas.commands := canvas.commands + [drawn];
    }
    assert labels[..|lines|] == labels;
  }

  /** `draw()`: nothing happens before the canvas element exists; otherwise
      setting the size clears the canvas and the slide is drawn afresh. */
  method Draw(canvas: Canvas?, text: String, index: nat, fontSize: nat, family: String, signature: String,
              metrics: Metrics, upper: String -> String)
    modifies canvas
    ensures canvas != null ==> canvas.width == Size && canvas.height == Size
    ensures canvas != null ==> canvas.commands == DisplayList(text, index, fontSize, family, signature, metrics, upper)
  {
    if canvas == null {
      return;
    }
    canvas.width := Size;
    canvas.height := Size;
    canvas.commands := [Fill(White)];
    if HasSignature(signature) {
      canvas.commands := canvas.commands + [Label(upper(signature), Center, SignatureY, SignatureFont, Grey, Alphabetic)];
      canvas.commands := canvas.commands + [Rule(Center - 100.0, Center + 100.0, RuleY, LightGrey, 2)];
    }
    assert canvas.commands == [Fill(White)] + SignatureBand(signature, upper);
    var lines := LineBreaker.WrapText(upper(text), metrics(BodyFont(fontSize, family)));
    DrawLines(canvas, lines, fontSize, family);
    assert lines == Lines(text, fontSize, family, metrics, upper);
    canvas.commands := canvas.commands + [Label(DecimalString(index + 1), Center, PageNumberY, PageFont, Black, Middle)];
  }

  /** The body block is centred: line `i` and line `n-1-i` sit symmetrically
      about the middle of the canvas, one line height apart from their
      neighbours. */
  lemma CentredLayout(n: nat, lh: real)
    ensures forall i :: 0 <= i < n ==> LineY(i, n, lh) + LineY(n - 1 - i, n, lh) == Size as real
    ensures forall i :: 0 <= i && i + 1 < n ==> LineY(i + 1, n, lh) - LineY(i, n, lh) == lh
  {
    forall i | 0 <= i < n ensures LineY(i, n, lh) + LineY(n - 1 - i, n, lh) == Size as real {
      StackedAdd(i, n - 1 - i, lh);
    }
  }

  /** The frame of a slide: background first, page number last, and the
      signature text next to the background when there is one. */
  lemma LayoutShape(lines: seq<String>, index: nat, fontSize: nat, family: String, signature: String,
                    upper: String -> String)
    ensures |Layout(lines, index, fontSize, family, signature, upper)| ==
            2 + (if HasSignature(signature) then 2 else 0) + |lines|
    ensures Layout(lines, index, fontSize, family, signature, upper)[0] == Fill(White)
    ensures Layout(lines, index, fontSize, family, signature, upper)[1 + (if HasSignature(signature) then 2 else 0) + |lines|] ==
            PageNumber(index)
    ensures HasSignature(signature) ==>
              Layout(lines, index, fontSize, family, signature, upper)[1] ==
              Label(upper(signature), Center, SignatureY, SignatureFont, Grey, Alphabetic)
  {
    var band := SignatureBand(signature, upper);
    var body := BodyLabels(lines, fontSize, family);
    FourPartsEnds(Fill(White), band, body, PageNumber(index));
    if HasSignature(signature) {
      FourPartsFirst(Fill(White), band, body, PageNumber(index), 0);
    }
  }

  /** The body of a slide: right after the signature band (two commands or
      none) come the labels of the wrapped lines, one per line, in order. */
  lemma LayoutBody(lines: seq<String>, index: nat, fontSize: nat, family: String, signature: String,
                   upper: String -> String)
    ensures var s := |SignatureBand(signature, upper)|;
            Layout(lines, index, fontSize, family, signature, upper)[1 + s..1 + s + |lines|] ==
            BodyLabels(lines, fontSize, family)
  {
    FourPartsSecond(Fill(White), SignatureBand(signature, upper), BodyLabels(lines, fontSize, family), PageNumber(index));
  }

  /** What `draw()` puts on a canvas never includes the watermark. */
  lemma LayoutUnmarked(lines: seq<String>, index: nat, fontSize: nat, family: String, signature: String,
                       upper: String -> String)
    ensures Watermark !in Layout(lines, index, fontSize, family, signature, upper)
  {
    var band := SignatureBand(signature, upper);
    var body := BodyLabels(lines, fontSize, family);
    var dl := Layout(lines, index, fontSize, family, signature, upper);
    assert Watermark !in body by {
      forall i | 0 <= i < |body| ensures body[i] != Watermark {
        assert body[i] == BodyLabel(lines[i], i, |lines|, fontSize, family);
      }
    }
  }

  /** The decorative rule is drawn exactly when the signature has content. */
  lemma SignatureShownIff(lines: seq<String>, index: nat, fontSize: nat, family: String, signature: String,
                          upper: String -> String)
    ensures var dl := Layout(lines, index, fontSize, family, signature, upper);
            (exists k :: 0 <= k < |dl| && dl[k].Rule?) <==> HasSignature(signature)
  {
    var band := SignatureBand(signature, upper);
    var body := BodyLabels(lines, fontSize, family);
    var dl := Layout(lines, index, fontSize, family, signature, upper);
    if HasSignature(signature) {
      FourPartsFirst(Fill(White), band, body, PageNumber(index), 1);
      assert dl[1 + 1].Rule?;
    } else {
      NoRuleAppend([Fill(White)], band);
      assert NoRule(body) by {
        forall i | 0 <= i < |body| ensures !body[i].Rule? {
          assert body[i] == BodyLabel(lines[i], i, |lines|, fontSize, family);
        }
      }
      NoRuleAppend([Fill(White)] + band, body);
      NoRuleAppend([Fill(White)] + band + body, [PageNumber(index)]);
    }
  }

  /** No decorative rule among the commands. */
  predicate NoRule(cs: seq<Command>)
  {
    forall i :: 0 <= i < |cs| ==> !cs[i].Rule?
  }

  lemma NoRuleAppend(a: seq<Command>, b: seq<Command>)
    requires NoRule(a) && NoRule(b)
    ensures NoRule(a + b)
  {
    forall i | 0 <= i < |a + b| ensures !(a + b)[i].Rule? {
      if i >= |a| { assert (a + b)[i] == b[i - |a|]; }
    }
  }

  /** The body labels carry exactly the non-whitespace content of the
      upper-cased slide text, in order: wrapping and trimming the lines
      only moves whitespace. */
  lemma BodyKeepsText(text: String, fontSize: nat, family: String, metrics: Metrics, upper: String -> String)
    ensures var lines := Lines(text, fontSize, family, metrics, upper);
            var labels := BodyLabels(lines, fontSize, family);
            Content(seq(|labels|, i requires 0 <= i < |labels| => labels[i].text)) == NonWs(upper(text))
  {
    var measure := metrics(BodyFont(fontSize, family));
    var lines := Lines(text, fontSize, family, metrics, upper);
    var labels := BodyLabels(lines, fontSize, family);
    var texts := seq(|labels|, i requires 0 <= i < |labels| => labels[i].text);
    ContentOfTrims(lines, texts);
    ConcatContent(lines);
    LineBreaker.WrappedConcat(upper(text), measure);
    NonWsAppend(upper(text), " ");
    assert NonWs(" ") == [];
  }

  /** The page number shows the slide's one-based position, and reads back
      as that number. */
  lemma PageNumberReadsBack(index: nat)
    ensures PageNumber(index).text != [] && AllDigits(PageNumber(index).text)
    ensures ParseDecimal(PageNumber(index).text) == index + 1
  {
    DecimalRoundTrip(index + 1);
  }
}
