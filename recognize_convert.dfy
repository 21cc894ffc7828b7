/**
 * Applying conversion results to the document state, from
 * js/recognizeConvertBrowser.js: `convertPageCallbackBrowser`, the
 * sequential order in which `recognizeAllPagesBrowser` applies a page's
 * Legacy and LSTM results, the converter job chosen for an input format, and
 * the engine left active after recognition.
 *
 * The globals the callback writes (`ocrAll`, `fontMetricObjsMessage`,
 * `convertPageWarn`, `pageMetricsArr`, `inputDataModes.xmlMode`, `layout`
 * and the progress counter) are the fields of a `Session`. The label of the
 * engine on display, read from the DOM, is a parameter; `displayPage` is
 * recorded by appending the page number to `displayed`.
 */
module RecognizeConvert {
  import opened JsValues
  import opened OcrObjects

  const Legacy: string := "Tesseract Legacy"
  const Lstm: string := "Tesseract LSTM"
  /** The store that mirrors the most recent primary-engine result. */
  const Latest: string := "Tesseract Latest"

  /** `['Tesseract Legacy', 'Tesseract LSTM'].includes(engineName)`. */
  predicate IsPrimary(engineName: string) {
    engineName == Legacy || engineName == Lstm
  }

  /** The font-metrics object a conversion produces; the callback stores it without looking inside. */
  type FontMetricsObj = nat

  /** A layout region; the callback only counts a page's regions and replaces them. */
  type LayoutBox = nat

  /** The fields of a `PageMetrics` record the callback sets. */
  datatype PageMetrics = PageMetrics(dims: (int, int), angle: real, left: real)

  /** `new PageMetrics(dims)`. */
  function NewPageMetrics(dims: (int, int)): PageMetrics {
    PageMetrics(dims, 0.0, 0.0)
  }

  /** The object a `convertPage*` job resolves to. */
  datatype ConvertResult = ConvertResult(
    pageObj: Page,
    fontMetricsObj: FontMetricsObj,
    layoutBoxes: map<string, LayoutBox>,
    warn: seq<string>)

  /** A snapshot of the state the callback reads and writes. */
  datatype Tables = Tables(
    ocrAll: map<string, map<nat, Page>>,
    fontMetrics: map<nat, FontMetricsObj>,
    warnings: map<nat, seq<string>>,
    pageMetrics: map<nat, PageMetrics>,
    xmlMode: map<nat, bool>,
    layout: map<nat, map<string, LayoutBox>>,
    progress: int,
    displayed: seq<nat>)

  /**
   * The stores the callback indexes exist: the engine's own store when the
   * engine is named, the "Tesseract Latest" store for a primary engine
   * (`initOCRVersion` creates both), and page n's layout entry.
   */
  predicate Ready(t: Tables, engineName: string, n: nat) {
    (engineName != "" ==> engineName in t.ocrAll) &&
    (IsPrimary(engineName) ==> Latest in t.ocrAll) &&
    n in t.layout
  }

  /**
   * The display test: the engine is the one whose label is shown, or it is
   * a primary engine while "Tesseract Latest" is shown. A missing label
   * element (None) matches no engine.
   */
  predicate DisplayOCR(engineName: string, oemActive: Option<string>) {
    oemActive == Some(engineName) || (IsPrimary(engineName) && oemActive == Some(Latest))
  }

  /** The engine stores after page n of `engineName` is stored (and mirrored). */
  function StorePage(ocrAll: map<string, map<nat, Page>>, n: nat, engineName: string, page: Page)
    : map<string, map<nat, Page>>
    requires engineName != "" ==> engineName in ocrAll
    requires IsPrimary(engineName) ==> Latest in ocrAll
  {
    var ocr1 :=
      if engineName != "" then
        var store: map<nat, Page> := ocrAll[engineName][n := page];
        ocrAll[engineName := store]
      else ocrAll;
    if IsPrimary(engineName) then
      var latest: map<nat, Page> := ocr1[Latest][n := page];
      ocr1[Latest := latest]
    else ocr1
  }

  /** Page n's metrics record after a main-data result: created if absent, then angle and left set. */
  function UpdateMetrics(pageMetrics: map<nat, PageMetrics>, n: nat, dims: (int, int), angle: real, left: real)
    : map<nat, PageMetrics>
  {
    var metrics := if n in pageMetrics then pageMetrics[n] else NewPageMetrics(dims);
    pageMetrics[n := metrics.(angle := angle, left := left)]
  }

  /** The layout table after page n's regions are offered. */
  function MergeLayout(layout: map<nat, map<string, LayoutBox>>, n: nat, layoutBoxes: map<string, LayoutBox>)
    : map<nat, map<string, LayoutBox>>
    requires n in layout
  {
    if layout[n] == map[] then layout[n := layoutBoxes] else layout
  }

  /** The display log after the callback's display test. */
  function Refresh(displayed: seq<nat>, n: nat, engineName: string, oemActive: Option<string>, current: nat)
    : seq<nat>
  {
    if n == current && DisplayOCR(engineName, oemActive) then displayed + [current] else displayed
  }

  /** Lines 101-103: the page stored under its engine and mirrored. */
  function AfterStore(t: Tables, n: nat, engineName: string, page: Page): Tables
    requires Ready(t, engineName, n)
  {
    t.(ocrAll := StorePage(t.ocrAll, n, engineName, page))
  }

  /** Lines 106-117: the records kept for main data. */
  function AfterMainData(t: Tables, n: nat, fontMetricsObj: FontMetricsObj, warn: seq<string>,
                         dims: (int, int), angle: real, left: real): Tables
  {
    t.(fontMetrics := t.fontMetrics[n := fontMetricsObj],
       warnings := t.warnings[n := warn],
       pageMetrics := UpdateMetrics(t.pageMetrics, n, dims, angle, left))
  }

  /** Lines 119-122: the page marked as converted and its layout filled if empty. */
  function AfterLayout(t: Tables, n: nat, layoutBoxes: map<string, LayoutBox>): Tables
    requires n in t.layout
  {
    t.(xmlMode := t.xmlMode[n := true], layout := MergeLayout(t.layout, n, layoutBoxes))
  }

  /** Lines 125-133: the display test and the progress count. */
  function AfterDisplay(t: Tables, n: nat, engineName: string, oemActive: Option<string>, current: nat): Tables {
    t.(displayed := Refresh(t.displayed, n, engineName, oemActive, current), progress := t.progress + 1)
  }

  /**
   * The state after `convertPageCallbackBrowser(res, n, mainData, engineName)`.
   * Progress advances by one, and no store or layout entry appears or
   * disappears, so a later callback on the same page can run.
   */
  function Callback(t: Tables, res: ConvertResult, n: nat, mainData: bool, engineName: string,
                    oemActive: Option<string>, current: nat): (u: Tables)
    requires Ready(t, engineName, n)
    reads res.pageObj
    ensures u.progress == t.progress + 1
    ensures u.ocrAll.Keys == t.ocrAll.Keys && u.layout.Keys == t.layout.Keys
    ensures Ready(u, engineName, n)
  {
    var page := res.pageObj;
    var t1 := AfterStore(t, n, engineName, page);
    var t2 :=
      if mainData then AfterMainData(t1, n, res.fontMetricsObj, res.warn, page.dims, page.angle, page.left)
      else t1;
    var t3 := AfterLayout(t2, n, res.layoutBoxes);
    AfterDisplay(t3, n, engineName, oemActive, current)
  }

  /** The document-wide state `convertPageCallbackBrowser` updates. */
  class Session {
    var ocrAll: map<string, map<nat, Page>>
    var fontMetricObjsMessage: map<nat, FontMetricsObj>
    var convertPageWarn: map<nat, seq<string>>
    var pageMetricsArr: map<nat, PageMetrics>
    var xmlMode: map<nat, bool>
    var layout: map<nat, map<string, LayoutBox>>
    var progress: int
    var displayed: seq<nat>

    function Snapshot(): Tables
      reads this
    {
      Tables(ocrAll, fontMetricObjsMessage, convertPageWarn, pageMetricsArr, xmlMode, layout, progress, displayed)
    }

    /**
     * `convertPageCallbackBrowser`: stores the page, mirrors a primary
     * engine's page into "Tesseract Latest", records main-data metrics,
     * marks the page as converted, fills an empty layout, refreshes the
     * display when page n is on screen for this engine and counts progress.
     */
    method ConvertPageCallback(res: ConvertResult, n: nat, mainData: bool, engineName: string,
                               oemActive: Option<string>, current: nat)
      requires Ready(Snapshot(), engineName, n)
      modifies this
      ensures Snapshot() == Callback(old(Snapshot()), res, n, mainData, engineName, oemActive, current)
    {
      var pageObj := res.pageObj;
      SavePage(pageObj, n, engineName);
      if mainData {
        SaveMainData(n, res.fontMetricsObj, res.warn, pageObj.dims, pageObj.angle, pageObj.left);
      }
      SaveLayout(n, res.layoutBoxes);
      Finish(n, engineName, oemActive, current);
    }

    /** Stores the page under its engine and, for a primary engine, under "Tesseract Latest". */
    method SavePage(pageObj: Page, n: nat, engineName: string)
      requires Ready(Snapshot(), engineName, n)
      modifies this
      ensures Snapshot() == AfterStore(old(Snapshot()), n, engineName, pageObj)
    {
      if engineName != "" {
        var store: map<nat, Page> := ocrAll[engineName][n := pageObj];
        ocrAll := ocrAll[engineName := store];
      }
      if IsPrimary(engineName) {
        var latest: map<nat, Page> := ocrAll[Latest][n := pageObj];
        ocrAll := ocrAll[Latest := latest];
      }
    }

    /** Records the font metrics, warnings and page metrics of main data. */
    method SaveMainData(n: nat, fontMetricsObj: FontMetricsObj, warn: seq<string>,
                        dims: (int, int), angle: real, left: real)
      modifies this
      ensures Snapshot() == AfterMainData(old(Snapshot()), n, fontMetricsObj, warn, dims, angle, left)
    {
      fontMetricObjsMessage := fontMetricObjsMessage[n := fontMetricsObj];
      convertPageWarn := convertPageWarn[n := warn];
      if n !in pageMetricsArr {
        pageMetricsArr := pageMetricsArr[n := NewPageMetrics(dims)];
      }
      pageMetricsArr := pageMetricsArr[n := pageMetricsArr[n].(angle := angle)];
      pageMetricsArr := pageMetricsArr[n := pageMetricsArr[n].(left := left)];
    }

    /** Marks the page as converted and takes its layout from the result only when it has none. */
    method SaveLayout(n: nat, layoutBoxes: map<string, LayoutBox>)
      requires n in layout
      modifies this
      ensures Snapshot() == AfterLayout(old(Snapshot()), n, layoutBoxes)
    {
      xmlMode := xmlMode[n := true];
      if layout[n] == map[] {
        layout := layout[n := layoutBoxes];
      }
    }

    /** Displays the page if it is on screen for this engine, then counts progress. */
    method Finish(n: nat, engineName: string, oemActive: Option<string>, current: nat)
      modifies this
      ensures Snapshot() == AfterDisplay(old(Snapshot()), n, engineName, oemActive, current)
    {
      var displayOCR := DisplayOCR(engineName, oemActive);
      if n == current && displayOCR {
        displayed := displayed + [current];
      }
      progress := progress + 1;
    }

    /**
     * The handler `recognizeAllPagesBrowser` attaches to page x's
     * recognition, with its callbacks run one after the other: the Legacy
     * result (flagged as main data) if Legacy was requested, else the LSTM
     * result; then, when both were requested, the LSTM result, which sees
     * the label and current page of its own moment.
     */
    method ApplyPageResults(x: nat, legacy: bool, lstm: bool, mainData: bool,
                            legacyRes: ConvertResult, lstmRes: ConvertResult,
                            oemActive: Option<string>, current: nat,
                            oemActive2: Option<string>, current2: nat)
      requires PagesReady(Snapshot(), x, legacy, lstm)
      modifies this
      ensures Snapshot() == HandlePage(old(Snapshot()), x, legacy, lstm, mainData, legacyRes, lstmRes,
                                                  oemActive, current, oemActive2, current2)
    {
      if legacy {
        ConvertPageCallback(legacyRes, x, mainData, Legacy, oemActive, current);
      } else if lstm {
        ConvertPageCallback(lstmRes, x, false, Lstm, oemActive, current);
      }
      if legacy && lstm {
        ConvertPageCallback(lstmRes, x, false, Lstm, oemActive2, current2);
      }
    }
  }

  // ---------------------------------------------------------------------------
  // What one callback does

  /** Page m of a per-page table is the same in a and b. */
  predicate SamePage<T(==)>(a: map<nat, T>, b: map<nat, T>, m: nat) {
    (m in a <==> m in b) && (m in a ==> a[m] == b[m])
  }

  /**
   * The page is always stored under its engine's name, and mirrored into
   * "Tesseract Latest" exactly when the engine is Legacy or LSTM; no other
   * engine's store changes and no store appears or disappears.
   */
  lemma CallbackStores(t: Tables, res: ConvertResult, n: nat, mainData: bool, engineName: string,
                       oemActive: Option<string>, current: nat)
    requires Ready(t, engineName, n)
    ensures var u := Callback(t, res, n, mainData, engineName, oemActive, current);
      u.ocrAll.Keys == t.ocrAll.Keys &&
      (engineName != "" ==> n in u.ocrAll[engineName] && u.ocrAll[engineName][n] == res.pageObj) &&
      (IsPrimary(engineName) ==> n in u.ocrAll[Latest] && u.ocrAll[Latest][n] == res.pageObj) &&
      (!IsPrimary(engineName) && engineName != Latest && Latest in t.ocrAll ==>
         u.ocrAll[Latest] == t.ocrAll[Latest]) &&
      (forall k :: k in t.ocrAll && k != engineName && k != Latest ==> u.ocrAll[k] == t.ocrAll[k])
  {
  }

  /**
   * Main data records the font metrics, the warnings and the page's angle
   * and left offset; a page-metrics record that already exists keeps its
   * dimensions (first writer wins). Without main data none of these tables
   * change.
   */
  lemma CallbackMetrics(t: Tables, res: ConvertResult, n: nat, mainData: bool, engineName: string,
                        oemActive: Option<string>, current: nat)
    requires Ready(t, engineName, n)
    ensures var u := Callback(t, res, n, mainData, engineName, oemActive, current);
      (mainData ==>
         n in u.fontMetrics && u.fontMetrics[n] == res.fontMetricsObj &&
         n in u.warnings && u.warnings[n] == res.warn &&
         n in u.pageMetrics &&
         u.pageMetrics[n].dims == (if n in t.pageMetrics then t.pageMetrics[n].dims else res.pageObj.dims) &&
         u.pageMetrics[n].angle == res.pageObj.angle && u.pageMetrics[n].left == res.pageObj.left) &&
      (!mainData ==>
         u.fontMetrics == t.fontMetrics && u.warnings == t.warnings && u.pageMetrics == t.pageMetrics)
  {
  }

  /**
   * The page is marked as holding converted text, and its layout is taken
   * from the result only when it has no regions yet: a non-empty layout is
   * never overwritten.
   */
  lemma CallbackLayout(t: Tables, res: ConvertResult, n: nat, mainData: bool, engineName: string,
                       oemActive: Option<string>, current: nat)
    requires Ready(t, engineName, n)
    ensures var u := Callback(t, res, n, mainData, engineName, oemActive, current);
      n in u.xmlMode && u.xmlMode[n] &&
      n in u.layout &&
      (t.layout[n] == map[] ==> u.layout[n] == res.layoutBoxes) &&
      (t.layout[n] != map[] ==> u.layout == t.layout)
  {
  }

  /**
   * The page is displayed exactly when it is the current page and either its
   * engine's label is shown or it is a primary engine while "Tesseract
   * Latest" is shown; otherwise nothing is displayed.
   */
  lemma CallbackDisplay(t: Tables, res: ConvertResult, n: nat, mainData: bool, engineName: string,
                        oemActive: Option<string>, current: nat)
    requires Ready(t, engineName, n)
    ensures var u := Callback(t, res, n, mainData, engineName, oemActive, current);
      var shows := n == current &&
        (oemActive == Some(engineName) || (IsPrimary(engineName) && oemActive == Some(Latest)));
      (shows ==> u.displayed == t.displayed + [n]) &&
      (!shows ==> u.displayed == t.displayed)
  {
  }

  /**
   * Each callback advances the progress counter by exactly one and leaves
   * every other page untouched in every per-page table.
   */
  lemma CallbackLocal(t: Tables, res: ConvertResult, n: nat, mainData: bool, engineName: string,
                      oemActive: Option<string>, current: nat, m: nat)
    requires Ready(t, engineName, n)
    requires m != n
    ensures var u := Callback(t, res, n, mainData, engineName, oemActive, current);
      u.progress == t.progress + 1 &&
      (forall k :: k in t.ocrAll ==> k in u.ocrAll && SamePage(u.ocrAll[k], t.ocrAll[k], m)) &&
      SamePage(u.fontMetrics, t.fontMetrics, m) && SamePage(u.warnings, t.warnings, m) &&
      SamePage(u.pageMetrics, t.pageMetrics, m) && SamePage(u.xmlMode, t.xmlMode, m) &&
      SamePage(u.layout, t.layout, m)
  {
  }

  /**
   * First writer wins: of two main-data callbacks on a page without a
   * metrics record, the first fixes the page dimensions and the second only
   * updates angle and left.
   */
  lemma MetricsFirstWriterWins(t: Tables, res1: ConvertResult, res2: ConvertResult, n: nat,
                               engine1: string, engine2: string, oemActive: Option<string>, current: nat)
    requires Ready(t, engine1, n) && Ready(t, engine2, n)
    ensures var u1 := Callback(t, res1, n, true, engine1, oemActive, current);
      Ready(u1, engine2, n) &&
      var u2 := Callback(u1, res2, n, true, engine2, oemActive, current);
      u2.pageMetrics[n] ==
        PageMetrics(if n in t.pageMetrics then t.pageMetrics[n].dims else res1.pageObj.dims,
                    res2.pageObj.angle, res2.pageObj.left)
  {
    var u1 := Callback(t, res1, n, true, engine1, oemActive, current);
    CallbackMetrics(t, res1, n, true, engine1, oemActive, current);
    CallbackMetrics(u1, res2, n, true, engine2, oemActive, current);
  }

  // ---------------------------------------------------------------------------
  // Recognition of one page with both engines

  /**
   * The stores `recognizeAllPagesBrowser` creates for the requested engines
   * (Legacy only when requested, LSTM only when requested, "Tesseract Latest"
   * always), and page x's layout entry.
   */
  predicate PagesReady(t: Tables, x: nat, legacy: bool, lstm: bool) {
    Latest in t.ocrAll && (legacy ==> Legacy in t.ocrAll) && (lstm ==> Lstm in t.ocrAll) && x in t.layout
  }

  /**
   * The state after the handler for page x has applied its results in
   * order. Each callback reads the label on display and the current page
   * when it runs: the first sees `oemActive` and `current`, the LSTM
   * callback that follows a Legacy one sees `oemActive2` and `current2`.
   */
  function HandlePage(t: Tables, x: nat, legacy: bool, lstm: bool, mainData: bool,
                      legacyRes: ConvertResult, lstmRes: ConvertResult,
                      oemActive: Option<string>, current: nat,
                      oemActive2: Option<string>, current2: nat): Tables
    requires PagesReady(t, x, legacy, lstm)
    reads legacyRes.pageObj, lstmRes.pageObj
  {
    var t1 :=
      if legacy then Callback(t, legacyRes, x, mainData, Legacy, oemActive, current)
      else if lstm then Callback(t, lstmRes, x, false, Lstm, oemActive, current)
      else t;
    if legacy && lstm then
      Callback(t1, lstmRes, x, false, Lstm, oemActive2, current2)
    else t1
  }

  /**
   * With the callbacks in order, "Tesseract Latest" ends up holding the
   * LSTM page whenever LSTM was requested and the Legacy page when only
   * Legacy was; each applied result advances progress by one. This is the
   * engine `FinalActiveEngine` leaves active.
   */
  lemma {:induction false} HandlePageLatest(t: Tables, x: nat, legacy: bool, lstm: bool, mainData: bool,
                                            legacyRes: ConvertResult, lstmRes: ConvertResult,
                                            oemActive: Option<string>, current: nat,
                                            oemActive2: Option<string>, current2: nat)
    requires PagesReady(t, x, legacy, lstm)
    ensures var u := HandlePage(t, x, legacy, lstm, mainData, legacyRes, lstmRes,
                          oemActive, current, oemActive2, current2);
      (lstm ==> x in u.ocrAll[Latest] && u.ocrAll[Latest][x] == lstmRes.pageObj) &&
      (legacy && !lstm ==> x in u.ocrAll[Latest] && u.ocrAll[Latest][x] == legacyRes.pageObj) &&
      (legacy || lstm ==>
         var e := FinalActiveEngine(lstm);
         x in u.ocrAll[e] && u.ocrAll[Latest][x] == u.ocrAll[e][x]) &&
      u.progress == t.progress + (if legacy && lstm then 2 else if legacy || lstm then 1 else 0)
  {
    if legacy {
      CallbackStores(t, legacyRes, x, mainData, Legacy, oemActive, current);
      CallbackLocal(t, legacyRes, x, mainData, Legacy, oemActive, current, x + 1);
      var t1 := Callback(t, legacyRes, x, mainData, Legacy, oemActive, current);
      if lstm {
        CallbackStores(t1, lstmRes, x, false, Lstm, oemActive2, current2);
        CallbackLocal(t1, lstmRes, x, false, Lstm, oemActive2, current2, x + 1);
      }
    } else if lstm {
      CallbackStores(t, lstmRes, x, false, Lstm, oemActive, current);
      CallbackLocal(t, lstmRes, x, false, Lstm, oemActive, current, x + 1);
    }
  }

  /**
   * The ordering matters: had the LSTM result been applied before the Legacy
   * one, "Tesseract Latest" would hold the Legacy page, not the LSTM page.
   */
  lemma LatestIsLastPrimaryWriter(t: Tables, x: nat, mainData: bool,
                                  legacyRes: ConvertResult, lstmRes: ConvertResult,
                                  oemActive: Option<string>, current: nat,
                                  oemActive2: Option<string>, current2: nat)
    requires PagesReady(t, x, true, true)
    ensures var u1 := Callback(t, lstmRes, x, false, Lstm, oemActive, current);
      Ready(u1, Legacy, x) &&
      var u2 := Callback(u1, legacyRes, x, mainData, Legacy, oemActive2, current2);
      x in u2.ocrAll[Latest] && u2.ocrAll[Latest][x] == legacyRes.pageObj
  {
  }

  // ---------------------------------------------------------------------------
  // Pure choices

  /** The converter job `convertOCRPageBrowser` submits for a raw-data format. */
  function ConverterJobName(format: string): (func: string)
    ensures func == "convertPageAbbyy" <==> format == "abbyy"
    ensures func == "convertPageStext" <==> format == "stext"
    ensures func == "convertPageHocr" <==> format != "abbyy" && format != "stext"
  {
    var func := "convertPageHocr";
    if format == "abbyy" then "convertPageAbbyy"
    else if format == "stext" then "convertPageStext"
    else func
  }

  /**
   * The engine `recognizeAllPagesBrowser` leaves active once recognition is
   * over: LSTM whenever it was requested, Legacy otherwise; never the
   * transient "Tesseract Latest".
   */
  function FinalActiveEngine(lstm: bool): (oemText: string)
    ensures oemText == Lstm <==> lstm
    ensures oemText == Legacy <==> !lstm
    ensures IsPrimary(oemText) && oemText != Latest
  {
    if lstm then Lstm else Legacy
  }
}
