/**
 * Font-size resolution from js/ocrObjects.js (`calcWordFontSize`,
 * `calcLineFontSize`). Font measurement itself (`getFontSize` from
 * textUtils.js) is not part of this model: it is a parameter, a function
 * from (font, style, pixel height, reference glyph) to a font size, and the
 * document's default font is a parameter too.
 */
module FontSizes {
  import opened JsValues
  import opened OcrObjects

  /** `getFontSize(font, style, pixelHeight, referenceGlyph)`. */
  type FontSizeProvider = (string, string, int, string) -> int

  /** The height of a word's box, `bbox[3] - bbox[1]`. */
  function WordHeight(w: Word): int
    requires w.bbox.Length == 4
    reads w.bbox
  {
    w.bbox[3] - w.bbox[1]
  }

  /**
   * `calcWordFontSize`: the word's own size if set; else, for a superscript,
   * the size whose "1" is as tall as the box; else, for a dropcap, the size
   * whose first character is as tall as the box; else None, meaning that the
   * line's size applies.
   */
  function CalcWordFontSize(w: Word, getFontSize: FontSizeProvider, defaultFont: string): (r: Option<int>)
    requires w.bbox.Length == 4
    reads w.bbox
    ensures r.None? <==> !TruthyNum(w.size) && !w.sup && !w.dropcap
    ensures TruthyNum(w.size) ==> r == w.size
  {
    if TruthyNum(w.size) then w.size
    else if w.sup then Some(getFontSize(StrOr(w.font, defaultFont), "normal", WordHeight(w), "1"))
    else if w.dropcap then Some(getFontSize(StrOr(w.font, defaultFont), "normal", WordHeight(w), FirstChar(w.text)))
    else None
  }

  /**
   * A word inherits the line's size exactly when it has no size of its own
   * (0 counts as none) and is neither a superscript nor a dropcap; a set size
   * wins without consulting the provider.
   */
  lemma WordFontSizePriority(w: Word, fs1: FontSizeProvider, fs2: FontSizeProvider, defaultFont: string)
    requires w.bbox.Length == 4
    ensures CalcWordFontSize(w, fs1, defaultFont).None? <==> !TruthyNum(w.size) && !w.sup && !w.dropcap
    ensures TruthyNum(w.size) ==>
      CalcWordFontSize(w, fs1, defaultFont) == CalcWordFontSize(w, fs2, defaultFont) == w.size
    ensures !TruthyNum(w.size) && w.sup ==>
      CalcWordFontSize(w, fs1, defaultFont) == Some(fs1(StrOr(w.font, defaultFont), "normal", WordHeight(w), "1"))
    ensures !TruthyNum(w.size) && !w.sup && w.dropcap ==>
      CalcWordFontSize(w, fs1, defaultFont) == Some(fs1(StrOr(w.font, defaultFont), "normal", WordHeight(w), FirstChar(w.text)))
  {
  }

  // ---------------------------------------------------------------------------
  // Line font size

  /** `line.words[0]?.font || defaultFont`. */
  function LineFont(ws: seq<Word>, defaultFont: string): string {
    if ws == [] then defaultFont else StrOr(ws[0].font, defaultFont)
  }

  /**
   * The size measured from the line's ascender height ("A") and x-height
   * ("o"): one of them alone, or the floor of the average of both; None
   * when neither is present.
   */
  function MeasuredSize(font: string, ascHeight: Option<int>, xHeight: Option<int>,
                        getFontSize: FontSizeProvider): Option<int>
  {
    if TruthyNum(ascHeight) && !TruthyNum(xHeight) then
      Some(getFontSize(font, "normal", ascHeight.value, "A"))
    else if !TruthyNum(ascHeight) && TruthyNum(xHeight) then
      Some(getFontSize(font, "normal", xHeight.value, "o"))
    else if TruthyNum(ascHeight) && TruthyNum(xHeight) then
      var size1 := getFontSize(font, "normal", ascHeight.value, "A");
      var size2 := getFontSize(font, "normal", xHeight.value, "o");
      Some((size1 + size2) / 2)
    else
      None
  }

  /** The `_sizeCalc` cache after `calcLineFontSize`. */
  function NextSizeCalc(size: Option<int>, sizeCalc: Option<int>, font: string,
                        ascHeight: Option<int>, xHeight: Option<int>,
                        getFontSize: FontSizeProvider): Option<int>
  {
    if TruthyNum(size) || TruthyNum(sizeCalc) then sizeCalc
    else
      match MeasuredSize(font, ascHeight, xHeight, getFontSize)
      case None => sizeCalc
      case Some(s) => Some(s)
  }

  /** The value `calcLineFontSize` returns. */
  function LineFontSize(size: Option<int>, sizeCalc: Option<int>, font: string,
                        ascHeight: Option<int>, xHeight: Option<int>,
                        getFontSize: FontSizeProvider): Option<int>
  {
    if TruthyNum(size) then size
    else NextSizeCalc(size, sizeCalc, font, ascHeight, xHeight, getFontSize)
  }

  /**
   * `calcLineFontSize`: resolves the line's size and caches a freshly
   * measured one in `_sizeCalc`.
   */
  method CalcLineFontSize(line: Line, getFontSize: FontSizeProvider, defaultFont: string)
    returns (r: Option<int>)
    modifies line`sizeCalc
    ensures r == LineFontSize(line.size, old(line.sizeCalc), LineFont(line.words, defaultFont),
                              line.ascHeight, line.xHeight, getFontSize)
    ensures line.sizeCalc == NextSizeCalc(line.size, old(line.sizeCalc), LineFont(line.words, defaultFont),
                                          line.ascHeight, line.xHeight, getFontSize)
  {
    if TruthyNum(line.size) {
      return line.size;
    }
    if TruthyNum(line.sizeCalc) {
      return line.sizeCalc;
    }
    var font := LineFont(line.words, defaultFont);
    if TruthyNum(line.ascHeight) && !TruthyNum(line.xHeight) {
      line.sizeCalc := Some(getFontSize(font, "normal", line.ascHeight.value, "A"));
    } else if !TruthyNum(line.ascHeight) && TruthyNum(line.xHeight) {
      line.sizeCalc := Some(getFontSize(font, "normal", line.xHeight.value, "o"));
    } else if TruthyNum(line.ascHeight) && TruthyNum(line.xHeight) {
      var size1 := getFontSize(font, "normal", line.ascHeight.value, "A");
      var size2 := getFontSize(font, "normal", line.xHeight.value, "o");
      line.sizeCalc := Some((size1 + size2) / 2);
    }
    return line.sizeCalc;
  }

  /**
   * The manual size wins, then the cached size, then a measurement; with
   * neither metric present (0 counts as absent) nothing is measured and the
   * cache is returned as it is.
   */
  lemma LineFontSizePriority(size: Option<int>, sizeCalc: Option<int>, font: string,
                             ascHeight: Option<int>, xHeight: Option<int>,
                             fs1: FontSizeProvider, fs2: FontSizeProvider)
    ensures TruthyNum(size) ==>
      LineFontSize(size, sizeCalc, font, ascHeight, xHeight, fs1) == size
    ensures !TruthyNum(size) && TruthyNum(sizeCalc) ==>
      LineFontSize(size, sizeCalc, font, ascHeight, xHeight, fs1) == sizeCalc
    ensures !TruthyNum(ascHeight) && !TruthyNum(xHeight) ==>
      LineFontSize(size, sizeCalc, font, ascHeight, xHeight, fs1) ==
      LineFontSize(size, sizeCalc, font, ascHeight, xHeight, fs2)
    ensures MeasuredSize(font, ascHeight, xHeight, fs1).None? <==> !TruthyNum(ascHeight) && !TruthyNum(xHeight)
  {
  }

  /**
   * Memoization: once a call has produced a size, a repeated call on the
   * updated line returns the same size whatever the provider answers.
   */
  lemma LineFontSizeMemoized(size: Option<int>, sizeCalc: Option<int>, font: string,
                             ascHeight: Option<int>, xHeight: Option<int>,
                             fs1: FontSizeProvider, fs2: FontSizeProvider)
    requires TruthyNum(LineFontSize(size, sizeCalc, font, ascHeight, xHeight, fs1))
    ensures LineFontSize(size, NextSizeCalc(size, sizeCalc, font, ascHeight, xHeight, fs1),
                         font, ascHeight, xHeight, fs2)
         == LineFontSize(size, sizeCalc, font, ascHeight, xHeight, fs1)
  {
  }

  /** With both metrics, the size lies between the two measured sizes. */
  lemma AveragedSizeBetween(font: string, ascHeight: int, xHeight: int, fs: FontSizeProvider)
    requires ascHeight != 0 && xHeight != 0
    ensures var size1, size2 := fs(font, "normal", ascHeight, "A"), fs(font, "normal", xHeight, "o");
      var r := MeasuredSize(font, Some(ascHeight), Some(xHeight), fs);
      r.Some? &&
      (size1 <= size2 ==> size1 <= r.value <= size2) &&
      (size2 <= size1 ==> size2 <= r.value <= size1) &&
      2 * r.value <= size1 + size2 < 2 * r.value + 2
  {
  }

  /**
   * Ascender height 20 and x-height 10, with a provider giving 30 for "A" at
   * height 20 and 24 for "o" at height 10, give floor((30 + 24) / 2) = 27.
   */
  lemma AveragedSizeExample()
    ensures LineFontSize(None, None, "Default", Some(20), Some(10),
                         (f: string, s: string, h: int, c: string) =>
                           if c == "A" && h == 20 then 30 else if c == "o" && h == 10 then 24 else 0)
            == Some(27)
  {
  }
}
