# CarrouselPro text-to-slide pipeline, modelled in Dafny

CarrouselPro turns a long text into a carousel of square 1080×1080 images.

- **Slide texts.** The text is cut into slide texts in one of two ways. *Paragraph mode* cuts at blank lines. *Smart split* cuts the text greedily into chunks of about 220 characters, preferring to cut after the last sentence mark. Smart split then writes its chunks back into the document, separated by blank lines.
- **Drawing.** Each slide text is upper-cased and greedily word-wrapped to 880 pixels. It is then drawn centred on a canvas, with an optional signature band and a page number.
- **Export.** Each drawn canvas is recorded in a registry under its slide index. The export writes the recorded canvases into an archive. The names `slide-1.png`, `slide-2.png`, … follow the order of the slide indices.
- **Premium gates.** The premium hook decides who is premium, who may save another carousel (free users get three), and whether `gateExport` watermarks a canvas. It also raises and lowers the paywall flag. The app's own export does not go through this hook.

The model is split into six modules:

| file | module | what it holds |
|---|---|---|
| `text.dfy` | `Text` | JavaScript strings as `seq<char>`, with the exact whitespace set `trim()` removes. Also `trim`, `join`, non-whitespace content and decimal numerals. |
| `chunker.dfy` | `Chunker` | Paragraph mode as pure functions. Smart split as a method with a `while` loop, proved against the specification function `SmartChunks`. |
| `linebreaker.dfy` | `LineBreaker` | The space split and the greedy wrap. The wrap is a method with a `for` loop, proved against the fold `WrapFrom`. |
| `slide.dfy` | `Slide` | The canvas as a class whose commands are a display list. The drawing is a method proved against the function `DisplayList`. |
| `export.dfy` | `Export` | The canvas registry as a class over a `map`, the render pass, and the archive naming loops. |
| `paywall.dfy` | `Paywall` | The premium decisions, and the hook instance as a class with the `showPaywall` flag. |

Three things the model takes as parameters:

- **Text measurement** (`measureText(...).width`) is a function-typed parameter.
- **Upper-casing** (`toUpperCase`) is a function-typed parameter.
- **The watermark** is one opaque `Watermark` drawing command.

The smart-split regular expression `/[.!?](?!.*[.!?])/` is modelled exactly, including the fact that `.` stops at line terminators. The match is "the last sentence mark of the window" only when the window holds no carriage return and no Unicode line or paragraph separator. `Chunker.MarkMatchIsLastMark` proves this, and `Chunker.CutIndexCases` states the cut rule under that condition. `SmartSplit` itself has no precondition.

## Model

| member | source | states |
|---|---|---|
| Text.Trim | App.js:124 | The result of `trim()` is trimmed. It is the slice of the input between a leading and a trailing run of whitespace. |
| Text.TrimKeepsContent | App.js:124 | Trimming loses only whitespace: the non-whitespace characters are unchanged. |
| Text.JoinContent | App.js:164 | Joining with a whitespace separator adds no content: the content of the join is the parts' content in order. |
| Text.DecimalRoundTrip | App.js:80 | The numeral printed for a number reads back as that number. |
| Text.DecimalInjective | App.js:185 | Different numbers print as different numerals. |
| Chunker.SplitBlankRuns | App.js:123 | Splitting at runs of two or more line feeds gives at least one piece. No piece contains two consecutive line feeds. Unless the text opens with a blank run, the first piece starts with the text's first character. With `SplitAtRun` and `SplitOfNoBlankRun` this pins the split for every text. |
| Chunker.SplitAtRun | App.js:123 | For any text, a maximal run of two or more line feeds cuts it: the text before the run (no blank run inside, not ending in a line feed) is one piece, and splitting goes on after the run. A run of any length counts, and so does a trailing line feed after it. |
| Chunker.ParagraphsAtRun | App.js:123-125 | At a maximal blank run, the text before it gives its trimmed self as a slide unless that is empty, and the text after it gives the remaining slides. |
| Chunker.ParagraphsOfNoBlankRun | App.js:123-125 | A text with no blank run gives at most one slide: itself, trimmed, unless that is empty. |
| Chunker.SplitOfNoBlankRun | App.js:123 | A text with no run of two line feeds is one piece, itself: a single line feed never splits. |
| Chunker.TrimNonEmpty | App.js:124-125 | After trimming and dropping empty pieces, every chunk is non-empty and trimmed, and there are no more chunks than pieces. |
| Chunker.Paragraphs | App.js:121-127 | Every slide of paragraph mode is non-empty and trimmed. Its content, emptiness, round trip and cuts are stated by `ParagraphsWellFormed`, `ParagraphsEmptyIff`, `ParagraphsOfJoin` and `ParagraphsAtRun`. |
| Chunker.ParagraphsWellFormed | App.js:121-127 | Paragraph chunks are non-empty and trimmed, and never contain a blank line. Together they hold exactly the document's non-whitespace characters, in order. |
| Chunker.ParagraphsEmptyIff | App.js:122-126 | Zero slides if and only if the document is empty or all whitespace. |
| Chunker.ParagraphsOfJoin | App.js:122-125 | Non-empty trimmed chunks with no blank line inside (single line feeds allowed), joined by blank lines, split back into exactly those chunks. |
| Chunker.ParagraphsIdempotent | App.js:121-127 | Joining the paragraph slides back with blank lines and splitting again gives the same slides. |
| Chunker.ParagraphsOfTwoBlocks | App.js:122-125 | `"A.\n\nB."` gives the two slides `"A."` and `"B."`. |
| Chunker.ParagraphsOfTwoLines | App.js:122-125 | `"A\nB"` gives the one slide `"A\nB"`: a single line feed stays inside its slide. |
| Chunker.LineFeedsToSpaces | App.js:134 | Every line feed becomes a space and every other character stays where it was, so the length and the non-whitespace content are kept and no line feed is left. |
| Chunker.Normalize | App.js:134 | The text smart split works on is trimmed, has no line feed, and keeps the document's non-whitespace characters in order. |
| Chunker.MarkMatch | App.js:150 | A match of the regular expression is the index of a sentence mark inside the window. `MarkMatchIsLastMark` says which one. |
| Chunker.LastMark | App.js:150 | The result is the largest index holding `.`, `!` or `?`, or -1 if there is none. |
| Chunker.MarkMatchIsLastMark | App.js:150 | On a window without line terminators, the regular expression matches exactly at the last sentence mark. |
| Chunker.LastIndexOf | App.js:155 | `lastIndexOf(c, from)` finds the last occurrence of `c` at or before `from`, or returns -1. |
| Chunker.CutIndex | App.js:146-158 | Every cut falls between 1 and `limit + 20` and within the text, so each iteration shrinks the remaining text: the loop terminates. |
| Chunker.CutAfterMark | App.js:151-152 | A cut beyond `limit` is always a punctuation cut, falling just after the mark. |
| Chunker.CutIndexCases | App.js:147-158 | When the lookback window has no line terminator, the cut follows the rule: if the window's last sentence mark lies past index 110, the cut falls just after it. Otherwise the cut is at the last space at or before index 220. If there is no such space, the cut is at 220. |
| Chunker.CutsByRule | App.js:139-161 | For a trimmed text without line terminators, every cut the loop makes, down to the last chunk, follows the cut rule. |
| Chunker.SmartSplitCutsByRule | App.js:133-161 | For a document with no carriage return and no Unicode line or paragraph separator, every cut smart split makes follows the cut rule: its line feeds have become spaces before any window is searched. |
| Chunker.SmartSplit | App.js:133-165 | The output is the smart chunks of the trimmed, line-feed-free text, joined by blank lines. It has the same non-whitespace characters as the input, in order. A text of at most 220 characters (including the empty text) comes back unchanged. |
| Chunker.SmartChunks | App.js:139-161 | There are no chunks exactly when the text is empty. Content, shape and the cut rule are stated by `SmartChunksContent`, `SmartChunksShape` and `CutsByRule`. |
| Chunker.SmartSplitFacts | App.js:133-165 | Smart split loses no content, and a text of at most 220 characters is one chunk returned as is. |
| Chunker.SmartChunksContent | App.js:139-161 | The chunks together hold exactly the text's non-whitespace characters, in order. |
| Chunker.SmartChunksShape | App.js:147-161 | Every chunk is non-empty, trimmed and at most 240 characters long. A chunk longer than 220 ends with the sentence mark it was cut after. |
| Chunker.SmartChunksNoLineFeed | App.js:134-161 | Chunks cut from a text without line feeds contain no line feed. |
| Chunker.SmartSplitReadBack | App.js:121-165 | The text smart split writes back re-enters paragraph mode as exactly the smart chunks, one slide per chunk, in order. |
| LineBreaker.Words | App.js:53 | `split(' ')` gives at least one word, and no word contains a space. |
| LineBreaker.JoinWords | App.js:53 | Re-joining the words with single spaces gives the text back, empty words included. |
| LineBreaker.WordsOfJoin | App.js:53 | Space-free words joined by spaces split back into the same words. |
| LineBreaker.WrapFrom | App.js:59-68 | The wrap gives at least one line and at most one line more than there are words. |
| LineBreaker.Wrapped | App.js:52-68 | The wrap of a text gives at least one line and at most one more line than the text has words. `WrappedConcat`, `WrappedAcceptable` and `WrappedGreedy` state what the lines hold. |
| LineBreaker.WrapText | App.js:52-68 | The `forEach` loop with `currentLine` computes exactly the greedy wrap of the upper-cased text. |
| LineBreaker.WrappedConcat | App.js:59-68 | The lines run together are the text followed by one space: every word followed by one space. |
| LineBreaker.WrappedAcceptable | App.js:60-66 | Every line fits in 880 pixels, or is empty, or is one word with its space: the only overflow allowed is a single word. |
| LineBreaker.FirstLineEmptyIff | App.js:59-68 | The first line is empty exactly when the first word alone is too wide. No later line is ever empty. |
| LineBreaker.WrappedGreedy | App.js:59-68 | Every line break was forced: the next line's first word would not have fitted on the line before it. |
| Slide.Canvas.ApplyWatermark | src/lib/paywall.js:19-59 | The watermark is drawn over what is already on the canvas. The size is unchanged. |
| Slide.SignatureBand | App.js:31-44 | When the trimmed signature is non-empty, the band is the upper-cased signature followed by the rule. Otherwise there is no band. |
| Slide.DrawLines | App.js:70-75 | Each wrapped line is drawn trimmed, centred, one line height below the previous, after what was already drawn. |
| Slide.DisplayList | App.js:26-80 | What `draw()` puts on a canvas never includes the watermark. `LayoutShape` and `LayoutBody` give its order. |
| Slide.Draw | App.js:17-80 | Without a canvas nothing happens. Otherwise the canvas becomes 1080×1080, and what is on it is exactly the slide's display list. |
| Slide.StackedIsProduct | App.js:70-74 | Stacking `k` line heights one under another reaches `k * lineHeight`, the offset the source computes by multiplication. |
| Slide.CentredLayout | App.js:55-74 | The body block is centred vertically: lines `i` and `n-1-i` are symmetric about the middle, and neighbours are one line height apart. |
| Slide.LayoutShape | App.js:26-80 | The background comes first and the page number last. The signature text comes right after the background when there is one. The slide holds two commands per signature band plus one per wrapped line, besides the two ends. |
| Slide.LayoutBody | App.js:46-75 | Right after the signature band (two commands or none) the slide holds exactly the body labels of the wrapped lines, one per line, in order. |
| Slide.LayoutUnmarked | App.js:17-80 | Drawing a slide never puts the watermark on the canvas. |
| Slide.SignatureShownIff | App.js:31-44 | The decorative rule is drawn exactly when the signature has non-whitespace content. |
| Slide.BodyKeepsText | App.js:52-75 | The body labels hold exactly the non-whitespace characters of the upper-cased text, in order. |
| Slide.PageNumberReadsBack | App.js:78-80 | The page number is a decimal numeral that reads back as the one-based slide position. |
| Export.EntryNamesDistinct | App.js:185 | Entry names of different positions differ. |
| Export.SortedKeys | App.js:182 | The integer keys are listed in ascending order, each exactly once. |
| Export.RangeSorted | App.js:182 | When the registry holds exactly the indices `0..n-1`, they are listed as `0, 1, …, n-1`. |
| Export.AscendingKeys | App.js:182 | The loop visits the registry's keys in the order `Object.values` uses: ascending. |
| Export.Archive | App.js:182-189 | The archive has one entry per registered canvas. Entry `i` is named `slide-<i+1>.png` and holds one of the registered canvases. |
| Export.EntriesOf | App.js:182-189 | The export files the registered canvases in ascending index order, naming the one at position `i` `slide-<i+1>.png`. |
| Export.CanvasRegistry.Register | App.js:331-333 | Registering a canvas sets its index and touches no other index. Nothing is ever removed. |
| Export.CanvasRegistry.ExportEntries | App.js:182-189 | The archive holds every canvas ever registered. |
| Export.CanvasRegistry.ExportSlides | App.js:182-189 | The corrected export holds only the canvases of the slides shown. |
| Export.Registered | App.js:331-333 | After a render pass, indices `0..n-1` hold the new canvases and every other index keeps its old one. |
| Export.RenderSlides | App.js:323-335 | Every slide is drawn on its own canvas with its display list, and registered under its index. |
| Export.ArchiveOfRange | App.js:182-189 | When the registry holds exactly slides `0..n-1`, the archive is `slide-1.png` … `slide-n.png`, and file `i` shows slide `i`. |
| Export.ArchiveNamesDistinct | App.js:182-189 | No two files of an archive share a name. |
| Export.StaleCanvasesExported | App.js:182-189 | After rendering fewer slides than before, the archive still has one file per earlier slide. The extra files show stale canvases. |
| Export.CurrentArchiveExact | App.js:182-189 | Restricted to the slides shown, the archive after a render pass is exactly one file per slide, in order, from that render. |
| Paywall.IsPremium | src/lib/paywall.js:73 | A user is premium exactly when there is a profile and its flag is `true`. A missing profile or a missing flag means not premium. |
| Paywall.CanSave | src/lib/paywall.js:79 | No contract of its own. `GateSave` lets a save through exactly when it holds, and `FreeQuota` and `SaveSession` count the saves it allows. |
| Paywall.PaywallGate.CanExportClean | src/lib/paywall.js:76 | No contract of its own. `GateExport` and `CleanExportIffPremium` state that the export is unmarked exactly when it holds. |
| Paywall.SaveSession | src/lib/paywall.js:71-96 | Successive save requests, each answered by a fresh hook whose count is one higher after every save that went through, let through exactly the number of saves `SavesAllowed` counts. |
| Paywall.FreeQuota | src/lib/paywall.js:71-79 | From the default count 0, a free user gets exactly `min(n, 3)` of `n` saves. A premium user gets all `n`. |
| Paywall.Gated | src/lib/paywall.js:82-86 | `gateExport` keeps everything already drawn, in order, and leaves the image unchanged exactly when the user is premium. |
| Paywall.CleanExportIffPremium | src/lib/paywall.js:76-86 | `gateExport` applied to a drawn slide leaves it free of the watermark exactly when `canExportClean` holds, that is, when the user is premium. |
| Paywall.PaywallGate.constructor | src/lib/paywall.js:71-73 | `isPremium` comes from the profile. A missing save count defaults to 0. The paywall starts hidden. |
| Paywall.PaywallGate.GateExport | src/lib/paywall.js:82-86 | The same canvas comes back. The watermark is appended exactly when the user is not premium. The size is unchanged. |
| Paywall.PaywallGate.GateSave | src/lib/paywall.js:89-96 | If saving is allowed, the callback runs exactly once, the result is true and the flag is unchanged. Otherwise the callback does not run, the result is false and the paywall is shown. |
| Paywall.PaywallGate.OpenPaywall | src/lib/paywall.js:98 | Shows the paywall; the profile and count are constant. |
| Paywall.PaywallGate.ClosePaywall | src/lib/paywall.js:99 | Hides the paywall; the profile and count are constant. |

## Findings

| source | as written | input that shows it | evidently intended | confidence | as-written member | corrected member |
|---|---|---|---|---|---|---|
| App.js:182-189 | `canvasMap` is only ever assigned into and never cleared. The export archives every canvas ever registered. | Render 3 slides (keys 0, 1, 2), then edit the text down to 2 slides. Keys 0 and 1 are re-registered, key 2 keeps the old canvas, and the export writes `slide-3.png` for a slide no longer shown. | The archive holds one image per current slide. | not executed | Export.StaleCanvasesExported | Export.CurrentArchiveExact |

`Export.CanvasRegistry.ExportEntries` models the export as written. `Export.CanvasRegistry.ExportSlides` is the corrected export, restricted to the current slide count.

## Left out

- JSX, React state and effects, and the UI are not modelled: `GoogleFonts`, the render tree, the navigation bar and the paywall modal. Each React effect is modelled as the call it makes.
- Canvas rasterisation (`fillRect`, `fillText`, `stroke`) is not modelled. Drawing is a list of commands with text, position, font, colour and baseline.
- The `textAlign` state is not recorded per command, because every text is centre-aligned.
- `measureText` is a parameter, `metrics`, giving the width of a string in a font. Font loading and real glyph metrics are not modelled.
- `toUpperCase` is a parameter, `upper`. Unicode case mapping, which can change the length of a string, is not modelled.
- `applyWatermark`'s geometry (rotation, alpha, the tiled loops, the bottom band) is not modelled. It is one opaque `Watermark` command.
- The export's asynchronous side is not modelled: loading JSZip, `toBlob`, `Promise.all`, `generateAsync` and the download link. A failure in those is not modelled either. An entry records the canvas its image comes from.
- The `mon_carrousel/` folder prefix of the archive entries is not part of the entry name in the model.
- Slide.Draw: the signature is always a string. A `null` or `undefined` signature, which the app never passes, is not modelled.
- Paywall.PaywallGate.GateSave: the `user` argument is unused by the source and left out. The `onSave` callback is modelled as the count of its runs.
- `useCarouselSync`, Supabase, Stripe and checkout are not part of this model. They are network and database wrappers. The save count that `usePaywall` receives is a plain parameter.
- Paywall.SavesAllowed / Paywall.FreeQuota: the hook never changes the save count. These members assume that the caller re-creates the hook with the count raised by one after each save that went through, as `Paywall.SaveSession` does. `useCarouselSync`, which raises the count, is not part of this model, and neither is the fact that it also counts re-saves of the same carousel.
- `is_premium` is modelled as an optional boolean. A non-boolean truthy value, which `??` would pass through, is not modelled.
- Strings are sequences of Unicode scalar values. JavaScript strings are UTF-16: a character outside the Basic Multilingual Plane, such as an emoji, counts as two toward `.length`, the 220-character limit and `substring`. The hard cut at 220 can split such a character into two lone surrogates. None of this is modelled.
- `lineHeight = fontSize * 1.15` and the y-positions are IEEE double-precision numbers in the source and exact reals in the model. The exact symmetry that `Slide.CentredLayout` proves holds for reals, and only up to rounding for doubles.
- The order in which the zip receives its entries is not modelled. `folder.file` runs inside each `toBlob` callback, so entries arrive in the order the encodings finish. The model's entry sequence is in naming order, which is the order of `Object.values`.
- App.js never uses `usePaywall`, `gateExport` or `applyWatermark`, so its export is never watermarked, for any user. The gate is modelled on its own. It is composed with a drawn slide only in `Paywall.CleanExportIffPremium`, following the usage the comment at src/lib/paywall.js:15-17 describes.
- Paywall.CanSave and Paywall.PaywallGate.CanExportClean are the one-line expressions at src/lib/paywall.js:76 and 79. They carry no contract of their own: `GateSave`, `SaveSession`, `FreeQuota`, `GateExport` and `CleanExportIffPremium` state what they decide.
