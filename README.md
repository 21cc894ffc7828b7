# OCR document layer: a Dafny model

This project models two sequential parts of the OCR document layer.

**The page → line → word model and its helpers** (`js/ocrObjects.js`):
- lookup and deletion of a word by id;
- flattening a page into its words and assembling line and page text;
- recomputing a line's box as the union of its word boxes;
- copying lines and words;
- the priority and memoization rules of word and line font sizes;
- the ligature and XML-escaping string rewrites;
- the early-return guard of `rotateLine` and the write-once rotation-offset memo of `calcLineAngleAdj`.

**The per-page result-application step** (`js/recognizeConvertBrowser.js`):
- `convertPageCallbackBrowser`, which stores a conversion result in the engine-keyed page stores;
- the order in which one page's Legacy and LSTM results are applied;
- the converter job chosen for a raw-data format;
- the engine left active once recognition is over.

Layout of the modules:

| file | module | what it holds |
|---|---|---|
| `js_values.dfy` | `JsValues` | nullable values and JavaScript truthiness (`if (x)`, `x \|\| y`, `slice(0, 1)`) |
| `ocr_objects.dfy` | `OcrObjects` | `Page` and `Line` classes, the `Word` record, lookup, deletion, flattening, text, cloning |
| `line_geometry.dfy` | `LineGeometry` | line box union, the `rotateLine` guard, the `_angleAdj` memo |
| `font_sizes.dfy` | `FontSizes` | `calcWordFontSize` and `calcLineFontSize` |
| `xml_text.dfy` | `XmlText` | `replaceLigatures` and `escapeXml` as chains of replacements |
| `recognize_convert.dfy` | `RecognizeConvert` | the `Session` state and `convertPageCallbackBrowser` |

Modelling choices:
- **Pages and lines are classes**, because the source updates their fields in place:
  - `deletePageWord` splices a line's word list;
  - `calcLineBbox` reassigns `bbox`;
  - `calcLineFontSize` and `calcLineAngleAdj` fill memo caches.
- **A word is a record.** No modelled operation writes a word's fields (`rotateLine`'s rewrite of word boxes is left out). A word keeps references to its `bbox` array and to its line, so the aliasing that `cloneLine` creates is visible in the model.
- **A page's word lists are read as a grid.** A grid is one sequence of words per line. The lookup, deletion and text operations are methods with the source's loops, and each is proved equal to a function on the grid (`FindWord`, `DeleteFirst`, `Flatten`, `LineText`, `PageText`). The lemmas are proved about those functions.
- **The result-application globals are the fields of a `Session` object.** These are `ocrAll`, `fontMetricObjsMessage`, `convertPageWarn`, `pageMetricsArr`, `inputDataModes.xmlMode`, `layout` and the progress counter. Each step of the callback is a method proved against a function on a snapshot of these tables.

Behaviour worth knowing (the model follows the code):
- **The display test.** It checks whether the label on display is "Tesseract Latest" (js/recognizeConvertBrowser.js:129), not whether the page lacks the other primary engine's result.
- **`cloneLine` is not a deep copy.** It shares each word's `bbox` array with the original (js/ocrObjects.js:380), and it does not copy the line's `_size` override (js/ocrObjects.js:377).
- **`getPageText` inserts no separator.** Its newline branch is guarded by `i < 0` (js/ocrObjects.js:124), which never holds. The model keeps that branch and proves that page text is the text of all words in reading order.

## Model

| member | source | states |
|---|---|---|
| OcrObjects.GetPageWord | js/ocrObjects.js:41-50 | the nested loop returns exactly the word the line-then-word search finds, or None |
| OcrObjects.FindWordFirst | js/ocrObjects.js:41-50 | the search reports nothing iff no word has the id; otherwise no matching word comes before the one reported |
| OcrObjects.FindWordAt | js/ocrObjects.js:43-46 | a match with no earlier match is the position the search reports |
| OcrObjects.DeletePageWord | js/ocrObjects.js:85-94 | the page's word lists become those of `DeleteFirst`; every other field of every line (box, baseline, heights, page, caches) keeps its value |
| OcrObjects.DeleteFirstShape | js/ocrObjects.js:85-94 | no line is removed; an absent id changes nothing; otherwise the first matching word leaves its line, the other words keep their order, and every other line is unchanged |
| OcrObjects.DeleteFirstRemovesOne | js/ocrObjects.js:85-94 | the page's words lose exactly the deleted word, as multisets |
| OcrObjects.DeleteUniqueIdempotent | js/ocrObjects.js:85-94 | with unique ids the id is gone afterwards, so a second deletion changes nothing |
| OcrObjects.GetPageWords | js/ocrObjects.js:99-105 | the result is all words of all lines, line after line |
| OcrObjects.GetLineText | js/ocrObjects.js:110-116 | the result is each word's text followed by one space |
| OcrObjects.LineTextLength | js/ocrObjects.js:110-116 | a line's text is as long as its words' texts plus one space per word |
| OcrObjects.LineTextAppend | js/ocrObjects.js:112-114 | the text of two word sequences joined is the join of their texts |
| OcrObjects.GetPageText | js/ocrObjects.js:121-128 | the result is the concatenation of the line texts, with the `i < 0` branch kept |
| OcrObjects.PageTextIsWordText | js/ocrObjects.js:121-128 | page text equals the line text of all the page's words, so no line break is ever inserted |
| OcrObjects.Line.constructor | js/ocrObjects.js:253-272 | a new line has the given page, boxes and heights, no words and empty size caches |
| OcrObjects.CloneLine | js/ocrObjects.js:376-392 | fresh line with fresh copies of bbox and baseline; same page and heights; `_sizeCalc`, `_size` and the angle memo empty; one word per original word with every field kept, its bbox array shared and its line reference set to the new line |
| OcrObjects.RelinkedKeepsText | js/ocrObjects.js:376-392 | the cloned words have the same text and the same id positions as the originals |
| OcrObjects.CloneWord | js/ocrObjects.js:399-410 | the copy equals the original except for a fresh bbox array holding the same values; the line reference is kept |
| JsValues.FirstChar | js/ocrObjects.js:31 | `slice(0, 1)` is the empty string for empty text and a one-character prefix otherwise |
| FontSizes.CalcWordFontSize | js/ocrObjects.js:25-35 | the result is null iff the word has no truthy size and is neither a superscript nor a dropcap; a truthy size is returned as it is |
| FontSizes.WordFontSizePriority | js/ocrObjects.js:25-35 | a set size wins without asking the provider; else a superscript measures "1", else a dropcap measures its first character at the box height; the result is null iff none applies |
| FontSizes.CalcLineFontSize | js/ocrObjects.js:139-162 | returns `LineFontSize` of the old cache and updates `_sizeCalc` to `NextSizeCalc` |
| FontSizes.LineFontSizePriority | js/ocrObjects.js:139-162 | `_size` wins, then `_sizeCalc`; with neither metric nothing is measured, the provider does not matter, and the measurement is null exactly then |
| FontSizes.LineFontSizeMemoized | js/ocrObjects.js:141-160 | once a size is produced, a repeated call on the updated cache returns it whatever the provider answers |
| FontSizes.AveragedSizeBetween | js/ocrObjects.js:154-157 | with both metrics the size is the floor of the average and lies between the two measured sizes |
| FontSizes.AveragedSizeExample | js/ocrObjects.js:154-157 | sizes 30 and 24 average to 27 |
| LineGeometry.MinOf | js/ocrObjects.js:278-279 | `Math.min` of a non-empty list is an element and is at most every element |
| LineGeometry.MaxOf | js/ocrObjects.js:280-281 | `Math.max` of a non-empty list is an element and is at least every element |
| LineGeometry.Union | js/ocrObjects.js:278-281 | the union box encloses every box, and each side is the side of some box |
| LineGeometry.CalcLineBbox | js/ocrObjects.js:275-283 | the line gets a fresh four-element bbox equal to the union of its word boxes; only `bbox` may change |
| LineGeometry.UnionIsLeast | js/ocrObjects.js:278-281 | the union is inside every box that encloses all word boxes |
| LineGeometry.LineBoxEnclosesWords | js/ocrObjects.js:275-283 | after recomputation every word box lies inside the line box |
| LineGeometry.UnionExample | js/ocrObjects.js:278-281 | boxes [0,0,10,10] and [12,0,20,12] give [0,0,20,12] |
| LineGeometry.RotateLineSkips | js/ocrObjects.js:334 | the guard as written skips exactly the dead zone plus every angle below -0.05 |
| LineGeometry.NegligibleAngle | js/ocrObjects.js:171 | `Math.abs(angle) <= 0.05` is the interval [-0.05, 0.05] |
| LineGeometry.RotateLineSkipsNegativeAngles | js/ocrObjects.js:334 | the guard as written returns early on every negative angle, including ones the angle memo treats as significant |
| LineGeometry.RotateLineGuardCounterexample | js/ocrObjects.js:334 | at -1 degree the guard skips the rotation although the angle is outside the dead zone |
| LineGeometry.NegligibleAngleSymmetric | js/ocrObjects.js:171 | the dead zone `abs(angle) <= 0.05` is symmetric and agrees with the guard on non-negative angles |
| LineGeometry.AngleAdjWriteOnce | js/ocrObjects.js:166-195 | once set, the memo is returned whatever angle or offset a later call sees; in the dead zone the first value is zero |
| LineGeometry.CalcLineAngleAdj | js/ocrObjects.js:166-195 | returns the memo if set, else zero in the dead zone and the rotation offset outside it; stores the result; never overwrites a set memo |
| XmlText.ReplaceEachAbsent | js/ocrObjects.js:201-217 | a chain of replacements leaves text without any replaced character unchanged |
| XmlText.ReplaceEachOne | js/ocrObjects.js:211-217 | when no later pattern occurs in an earlier replacement, a chain turns each character into its first matching replacement |
| XmlText.ReplaceEachRemoves | js/ocrObjects.js:201-203 | a replaced character that no replacement contains is absent from the output |
| XmlText.ReplaceEachRemovesAll | js/ocrObjects.js:201-203 | when no replacement contains a replaced character, none of them is left in the output |
| XmlText.ReplaceLigatures | js/ocrObjects.js:201-203 | the output holds none of the five ligature code points, and text without ligatures is returned unchanged |
| XmlText.EntityChainIsPerChar | js/ocrObjects.js:211-217 | because `&` is replaced first, the chain of five replacements escapes each character exactly once |
| XmlText.EscapedSafe | js/ocrObjects.js:211-217 | per-character escaping leaves no raw specials, and every `&` starts an entity |
| XmlText.EscapedRoundTrip | js/ocrObjects.js:211-217 | decoding the five entities recovers per-character escaped text |
| XmlText.EscapeXml | js/ocrObjects.js:211-217 | the output has no raw `<`, `>`, `"` or `'`, every `&` starts one of the five entities, and decoding the entities recovers the input |
| RecognizeConvert.Callback | js/recognizeConvertBrowser.js:98-134 | progress rises by one, no store or layout entry appears or disappears, and the stores the next callback on the page needs are still there |
| RecognizeConvert.Session.ConvertPageCallback | js/recognizeConvertBrowser.js:98-134 | the new state is `Callback` of the old state, so every `Callback*` lemma holds of it |
| RecognizeConvert.Session.SavePage | js/recognizeConvertBrowser.js:101-103 | the page is stored under its engine and mirrored for a primary engine |
| RecognizeConvert.Session.SaveMainData | js/recognizeConvertBrowser.js:106-117 | metrics, warnings and page-metrics record updated as the main-data step prescribes |
| RecognizeConvert.Session.SaveLayout | js/recognizeConvertBrowser.js:119-122 | the page is marked converted and an empty layout is filled |
| RecognizeConvert.Session.Finish | js/recognizeConvertBrowser.js:125-133 | the display log and progress counter are updated |
| RecognizeConvert.CallbackStores | js/recognizeConvertBrowser.js:101-103 | the page is stored under its engine; it is mirrored into "Tesseract Latest" iff the engine is Legacy or LSTM; no other store changes |
| RecognizeConvert.CallbackMetrics | js/recognizeConvertBrowser.js:106-117 | main data records metrics, warnings, angle and left; an existing record keeps its dimensions; without main data none of these tables change |
| RecognizeConvert.CallbackLayout | js/recognizeConvertBrowser.js:119-122 | `xmlMode[n]` becomes true; the layout is taken from the result iff the page had none; a non-empty layout is never overwritten |
| RecognizeConvert.CallbackDisplay | js/recognizeConvertBrowser.js:125-131 | the page is displayed iff it is the current page and its engine is the label shown, or it is a primary engine while "Tesseract Latest" is shown |
| RecognizeConvert.CallbackLocal | js/recognizeConvertBrowser.js:101-133 | progress rises by exactly one and every other page is untouched in every per-page table |
| RecognizeConvert.MetricsFirstWriterWins | js/recognizeConvertBrowser.js:111-116 | of two main-data callbacks, the first fixes the page dimensions and the second only updates angle and left |
| RecognizeConvert.Session.ApplyPageResults | js/recognizeConvertBrowser.js:51-71 | applying a page's results in order yields `HandlePage` of the old state; the LSTM callback that follows a Legacy one reads its own display label and current page |
| RecognizeConvert.HandlePageLatest | js/recognizeConvertBrowser.js:51-71 | for any session holding the stores of the requested engines, "Tesseract Latest" ends with the LSTM page whenever LSTM ran, else the Legacy page; it matches the finally active engine's store; progress rises by one per applied result |
| RecognizeConvert.LatestIsLastPrimaryWriter | js/recognizeConvertBrowser.js:55-68 | had LSTM been applied before Legacy, "Tesseract Latest" would hold the Legacy page |
| RecognizeConvert.ConverterJobName | js/recognizeConvertBrowser.js:148-154 | "abbyy" selects `convertPageAbbyy`, "stext" `convertPageStext`, anything else `convertPageHocr`, each iff |
| RecognizeConvert.FinalActiveEngine | js/recognizeConvertBrowser.js:79-85 | LSTM iff LSTM was requested, Legacy otherwise, never "Tesseract Latest" |

## Left out

- Rotation trigonometry: the bodies of `rotateBbox` and `rotateLine` (rotated word boxes, line box and baseline) and the offset formula of `calcLineAngleAdj` (js/ocrObjects.js:173-190, 285-369) are floating-point trigonometry. The computed offset is a parameter of `CalcLineAngleAdj`, and only the guard of `rotateLine` is modelled.
- LineGeometry.CalcLineAngleAdj: the page angle is never null in the model, so `angle ?? 0` is not modelled.
- LineGeometry.CalcLineBbox: requires a line with at least one word. On an empty line `Math.min()` gives Infinity, which is not modelled, and `deletePageWord` can leave such lines.
- Font measurement: `getFontSize` (textUtils.js, not part of this model) is an asynchronous external provider. It is a function parameter returning integers, and the default font is a parameter. Non-integer and NaN sizes are not modelled.
- Numbers: JavaScript numbers are modelled as integers for pixel coordinates and sizes, and as reals for angles and offsets. There is no double rounding.
- Word edits: no modelled operation writes a word's fields. `rotateLine` reassigns every word's `bbox` to a rotated copy (js/ocrObjects.js:350-353); that rewrite is trigonometry and is left out with it. The canvas and DOM handlers of js/interfaceEdit.js that edit words are not part of this model.
- Promise orchestration in `recognizeAllPagesBrowser` (js/recognizeConvertBrowser.js:7-77): promise pairs, scheduler readiness, worker jobs and concurrency. `ApplyPageResults` models only the order in which one page's callbacks run.
- Job submission in `convertOCRPageBrowser` and `convertOCRAllBrowser`: only the choice of job name is modelled.
- The DOM read of the label on display is a parameter (None when the element is missing).
- `displayPage` is recorded as the page number appended to a log.
- `PageMetrics` (pageMetricsObjects.js, not part of this model): only the dimensions, angle and left offset are kept. The defaults of the constructor are overwritten at once by the callback.
- The font-metrics object and the layout boxes are opaque tokens, because the callback stores them without looking inside.
- RecognizeConvert.Session.ConvertPageCallback: requires the engine's store, the "Tesseract Latest" store for a primary engine, and page n's layout entry to exist. When one is missing the source throws a TypeError, and that path is not modelled.
- RecognizeConvert.Session.ApplyPageResults: requires the stores `recognizeAllPagesBrowser` creates for the requested engines (Legacy when requested, LSTM when requested, "Tesseract Latest" always) and page x's layout entry. The TypeError raised when one of them is missing is not modelled.
- Well-formed documents: `OcrObjects.DeletePageWord` requires a page's lines to be distinct objects; `LineGeometry.CalcLineAngleAdj` requires the line to belong to a page (the source stores `{x: 0, y: 0}` and then throws a TypeError when it does not); `FontSizes.CalcWordFontSize` requires a four-element bbox even when a set size means the box is never read.
- Text: strings are sequences of characters. There is no UTF-16 or regular-expression machinery; each replacement is a global single-character replace.
- js/browser/debugGlobals.js only re-exports names for debugging. It holds no logic.

## Findings

| source | as written | input that shows it | evidently intended | confidence | as-written member | corrected member |
|---|---|---|---|---|---|---|
| js/ocrObjects.js:334 | `rotateLine` returns early when `angle <= 0.05`, with no absolute value | angle = -1 degree: the line is not rotated although `calcLineAngleAdj` (line 171) treats the angle as significant | return early only when `abs(angle) <= 0.05`, the dead zone the comment describes and line 171 uses | medium, not executed | LineGeometry.RotateLineGuardCounterexample | LineGeometry.NegligibleAngleSymmetric |
