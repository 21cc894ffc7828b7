/**
 * The OCR document model of js/ocrObjects.js: a page owns an ordered list
 * of lines, a line owns an ordered list of words. Lines (and pages) are
 * objects updated in place; a word is a record that carries references to
 * its bbox array and to the line it belongs to.
 *
 * The word lists of a page are read out as a grid (one sequence of words
 * per line); lookup, deletion, flattening and text assembly are specified
 * as functions on that grid and the lemmas below are proved about them.
 */
module OcrObjects {
  import opened JsValues

  /** An axis-aligned box [left, top, right, bottom] in pixels. */
  datatype Box = Box(left: int, top: int, right: int, bottom: int)

  /** The box held in a four-element bbox array. */
  function BoxOf(a: array<int>): Box
    requires a.Length == 4
    reads a
  {
    Box(a[0], a[1], a[2], a[3])
  }

  /** Pixel offset used to place a rotated line on an unrotated canvas. */
  datatype Offset = Offset(x: real, y: real)

  /** The fields of an `ocrWord`. `font` and `size` are nullable overrides. */
  datatype Word = Word(
    sup: bool,
    dropcap: bool,
    text: string,
    style: string,
    font: Option<string>,
    size: Option<int>,
    conf: int,
    bbox: array<int>,
    compTruth: bool,
    matchTruth: bool,
    id: string,
    line: Line?)

  /** `new ocrWord(line, text, bbox, id)`: every other field at its default. */
  function NewWord(line: Line?, text: string, bbox: array<int>, id: string): Word {
    Word(false, false, text, "normal", None, None, 0, bbox, false, false, id, line)
  }

  /** An `ocrPage`: image dimensions, skew angle in degrees, left offset, lines. */
  class Page {
    var dims: (int, int)
    var angle: real
    var left: real
    var lines: seq<Line>
  }

  /**
   * An `ocrLine`. `sizeCalc` and `angleAdj` are memo caches, `size` a manual
   * font-size override; `baseline` holds [slope, intercept].
   */
  class Line {
    var bbox: array<int>
    var baseline: array<real>
    var ascHeight: Option<int>
    var xHeight: Option<int>
    var words: seq<Word>
    var page: Page?
    var sizeCalc: Option<int>
    var size: Option<int>
    var angleAdj: Option<Offset>

    /** `new ocrLine(page, bbox, baseline, ascHeight, xHeight)`: no words, empty caches. */
    constructor (page: Page?, bbox: array<int>, baseline: array<real>,
                 ascHeight: Option<int>, xHeight: Option<int>)
      ensures this.page == page && this.bbox == bbox && this.baseline == baseline
      ensures this.ascHeight == ascHeight && this.xHeight == xHeight
      ensures words == [] && sizeCalc == None && size == None && angleAdj == None
    {
      this.bbox := bbox;
      this.baseline := baseline;
      this.ascHeight := ascHeight;
      this.xHeight := xHeight;
      this.words := [];
      this.page := page;
      this.sizeCalc := None;
      this.size := None;
      this.angleAdj := None;
    }
  }

  // ---------------------------------------------------------------------------
  // The grid view of a page

  /** The word lists of `lines`, one sequence per line, in order. */
  ghost function Grid(lines: seq<Line>): (g: seq<seq<Word>>)
    reads lines
    ensures |g| == |lines|
    ensures forall i :: 0 <= i < |lines| ==> g[i] == lines[i].words
  {
    seq(|lines|, i requires 0 <= i < |lines| reads lines => lines[i].words)
  }

  /** A page owns each of its lines once. */
  ghost predicate DistinctLines(lines: seq<Line>) {
    forall i, j :: 0 <= i < j < |lines| ==> lines[i] != lines[j]
  }

  /** Word ids are unique within a page. */
  ghost predicate UniqueIds(g: seq<seq<Word>>) {
    forall i, j, i', j' ::
      (0 <= i < |g| && 0 <= j < |g[i]| && 0 <= i' < |g| && 0 <= j' < |g[i']| &&
       g[i][j].id == g[i'][j'].id) ==> i == i' && j == j'
  }

  /** Line i of grid g holds, at position j, a word whose id is `id`. */
  predicate IdAt(g: seq<seq<Word>>, i: int, j: int, id: string) {
    0 <= i < |g| && 0 <= j < |g[i]| && g[i][j].id == id
  }

  /** A word position: line index, then index within the line. */
  datatype Pos = Pos(line: nat, word: nat)

  /** Position p is at or before (i, j) in line-then-word order. */
  predicate NotAfter(p: Pos, i: int, j: int) {
    p.line < i || (p.line == i && p.word <= j)
  }

  /** Index of the first word in `ws` with id `id`. */
  function IndexOfId(ws: seq<Word>, id: string): (r: Option<nat>)
    ensures r.Some? ==> r.value < |ws| && ws[r.value].id == id
    ensures r.Some? ==> forall k :: 0 <= k < r.value ==> ws[k].id != id
    ensures r.None? ==> forall k :: 0 <= k < |ws| ==> ws[k].id != id
  {
    if ws == [] then None
    else if ws[0].id == id then Some(0)
    else match IndexOfId(ws[1..], id)
      case None => None
      case Some(k) => Some(k + 1)
  }

  /** The nested search of `getPageWord`: lines in order, words in order. */
  function FindWord(g: seq<seq<Word>>, id: string): (r: Option<Pos>)
    ensures r.Some? ==> IdAt(g, r.value.line, r.value.word, id)
  {
    if g == [] then None
    else match IndexOfId(g[0], id)
      case Some(j) => Some(Pos(0, j))
      case None =>
        match FindWord(g[1..], id)
        case None => None
        case Some(p) => Some(Pos(p.line + 1, p.word))
  }

  /** The word `getPageWord` returns, or None for `null`. */
  function Lookup(g: seq<seq<Word>>, id: string): Option<Word> {
    match FindWord(g, id)
    case None => None
    case Some(p) => Some(g[p.line][p.word])
  }

  /**
   * FindWord reports the first position, in line-then-word order, that holds
   * the id, and reports nothing exactly when no word of the page has it.
   */
  lemma {:induction false} FindWordFirst(g: seq<seq<Word>>, id: string)
    ensures FindWord(g, id).None? <==> forall i, j :: !IdAt(g, i, j, id)
    ensures FindWord(g, id).Some? ==>
      forall i, j :: IdAt(g, i, j, id) ==> NotAfter(FindWord(g, id).value, i, j)
  {
    if g != [] {
      FindWordFirst(g[1..], id);
      forall i, j | IdAt(g, i, j, id) && i > 0 ensures IdAt(g[1..], i - 1, j, id) {
      }
      if IndexOfId(g[0], id).None? {
        forall j ensures !IdAt(g, 0, j, id) {
        }
        forall i, j | IdAt(g[1..], i, j, id) ensures IdAt(g, i + 1, j, id) {
        }
      }
    }
  }

  /** Two positions that both satisfy FindWordFirst's description are equal. */
  lemma FindWordAt(g: seq<seq<Word>>, id: string, i: nat, j: nat)
    requires IdAt(g, i, j, id)
    requires forall i', j' :: IdAt(g, i', j', id) ==> NotAfter(Pos(i, j), i', j')
    ensures FindWord(g, id) == Some(Pos(i, j))
  {
    FindWordFirst(g, id);
  }

  /**
   * `getPageWord`: the first word, in line-then-word order, whose id is
   * `id`, or None (`null`) when there is none.
   */
  method GetPageWord(page: Page, id: string) returns (r: Option<Word>)
    ensures r == Lookup(Grid(page.lines), id)
  {
    ghost var g := Grid(page.lines);
    var i := 0;
    while i < |page.lines|
      invariant 0 <= i <= |page.lines|
      invariant forall i', j' :: IdAt(g, i', j', id) ==> i' >= i
    {
      var j := 0;
      while j < |page.lines[i].words|
        invariant 0 <= j <= |page.lines[i].words|
        invariant forall j' :: IdAt(g, i, j', id) ==> j' >= j
      {
        if page.lines[i].words[j].id == id {
          FindWordAt(g, id, i, j);
          return Some(page.lines[i].words[j]);
        }
        j := j + 1;
      }
      i := i + 1;
    }
    FindWordFirst(g, id);
    return None;
  }

  // ---------------------------------------------------------------------------
  // Deletion

  /** `ws` without its element at index j. */
  function RemoveAt(ws: seq<Word>, j: nat): seq<Word>
    requires j < |ws|
  {
    ws[..j] + ws[j + 1..]
  }

  /** The grid after `deletePageWord(page, id)`. */
  function DeleteFirst(g: seq<seq<Word>>, id: string): seq<seq<Word>> {
    match FindWord(g, id)
    case None => g
    case Some(p) => g[p.line := RemoveAt(g[p.line], p.word)]
  }

  /** All words of a grid, line after line. */
  function Flatten(g: seq<seq<Word>>): seq<Word> {
    if g == [] then [] else g[0] + Flatten(g[1..])
  }

  lemma {:induction false} FlattenSnoc(g: seq<seq<Word>>, s: seq<Word>)
    ensures Flatten(g + [s]) == Flatten(g) + s
  {
    if g == [] {
      assert g + [s] == [s];
      assert Flatten([s]) == s + Flatten([]);
    } else {
      assert (g + [s])[1..] == g[1..] + [s];
      FlattenSnoc(g[1..], s);
    }
  }

  /** Replacing one line's words trades exactly that line's words in the flattened multiset. */
  lemma {:induction false} FlattenUpdate(g: seq<seq<Word>>, i: nat, s: seq<Word>)
    requires i < |g|
    ensures multiset(Flatten(g[i := s])) + multiset(g[i]) == multiset(Flatten(g)) + multiset(s)
  {
    var rest := Flatten(g[1..]);
    assert Flatten(g) == g[0] + rest;
    if i == 0 {
      assert g[i := s][1..] == g[1..];
      assert Flatten(g[i := s]) == s + rest;
    } else {
      assert g[i := s][1..] == g[1..][i - 1 := s];
      assert g[1..][i - 1] == g[i];
      FlattenUpdate(g[1..], i - 1, s);
      var updated := Flatten(g[1..][i - 1 := s]);
      assert Flatten(g[i := s]) == g[0] + updated;
      assert multiset(Flatten(g[i := s])) == multiset(g[0]) + multiset(updated);
      assert multiset(Flatten(g)) == multiset(g[0]) + multiset(rest);
      calc {
        multiset(Flatten(g[i := s])) + multiset(g[i]);
        multiset(g[0]) + (multiset(updated) + multiset(g[i]));
        multiset(g[0]) + (multiset(rest) + multiset(s));
        multiset(Flatten(g)) + multiset(s);
      }
    }
  }

  /**
   * `deletePageWord` never removes a line; without a match it changes
   * nothing; with one, it removes from the matching line exactly the word at
   * the first matching position, keeping the order of the others, and
   * leaves every other line as it was.
   */
  lemma DeleteFirstShape(g: seq<seq<Word>>, id: string)
    ensures |DeleteFirst(g, id)| == |g|
    ensures FindWord(g, id).None? ==> DeleteFirst(g, id) == g
    ensures FindWord(g, id).Some? ==>
      var p := FindWord(g, id).value;
      g[p.line][p.word].id == id &&
      |DeleteFirst(g, id)[p.line]| + 1 == |g[p.line]| &&
      (forall k :: 0 <= k < p.word ==> DeleteFirst(g, id)[p.line][k] == g[p.line][k]) &&
      (forall k :: p.word <= k < |DeleteFirst(g, id)[p.line]| ==> DeleteFirst(g, id)[p.line][k] == g[p.line][k + 1]) &&
      (forall i :: 0 <= i < |g| && i != p.line ==> DeleteFirst(g, id)[i] == g[i])
  {
  }

  lemma MultisetCancel(a: multiset<Word>, b: multiset<Word>, c: multiset<Word>)
    requires a + c == b + c
    ensures a == b
  {
    assert forall x :: (a + c)[x] == a[x] + c[x] && (b + c)[x] == b[x] + c[x];
  }

  /**
   * `deletePageWord` removes exactly one word, the one at the first position
   * holding the id: the words of the page lose that word and nothing else.
   */
  lemma DeleteFirstRemovesOne(g: seq<seq<Word>>, id: string, p: Pos)
    requires FindWord(g, id) == Some(p)
    ensures g[p.line][p.word].id == id
    ensures multiset(Flatten(DeleteFirst(g, id))) + multiset{g[p.line][p.word]} == multiset(Flatten(g))
  {
    var ws := g[p.line];
    var rest := RemoveAt(ws, p.word);
    assert DeleteFirst(g, id) == g[p.line := rest];
    assert ws == ws[..p.word] + [ws[p.word]] + ws[p.word + 1..];
    assert multiset(ws) == multiset(rest) + multiset{ws[p.word]};
    FlattenUpdate(g, p.line, rest);
    MultisetCancel(multiset(Flatten(DeleteFirst(g, id))) + multiset{ws[p.word]}, multiset(Flatten(g)), multiset(rest));
  }

  /**
   * With unique ids, the deleted id is gone afterwards, so a second
   * `deletePageWord` with the same id is a no-op.
   */
  lemma DeleteUniqueIdempotent(g: seq<seq<Word>>, id: string)
    requires UniqueIds(g)
    ensures FindWord(DeleteFirst(g, id), id).None?
    ensures DeleteFirst(DeleteFirst(g, id), id) == DeleteFirst(g, id)
  {
    var r := DeleteFirst(g, id);
    match FindWord(g, id)
    case None =>
      FindWordFirst(g, id);
    case Some(p) =>
      forall a, b ensures !IdAt(r, a, b, id) {
        var b' := if a == p.line && b >= p.word then b + 1 else b;
        assert IdAt(r, a, b, id) ==> IdAt(g, a, b', id);
      }
      FindWordFirst(r, id);
  }

  /**
   * `deletePageWord`: splices the first word with the id out of its line's
   * word list; no match leaves every line as it was. Only word lists
   * change: every other field of every line keeps its value.
   */
  method DeletePageWord(page: Page, id: string)
    requires DistinctLines(page.lines)
    modifies page.lines
    ensures Grid(page.lines) == DeleteFirst(old(Grid(page.lines)), id)
    ensures forall l :: l in page.lines ==>
      l.bbox == old(l.bbox) && l.baseline == old(l.baseline) &&
      l.ascHeight == old(l.ascHeight) && l.xHeight == old(l.xHeight) && l.page == old(l.page) &&
      l.sizeCalc == old(l.sizeCalc) && l.size == old(l.size) && l.angleAdj == old(l.angleAdj)
  {
    ghost var g := Grid(page.lines);
    var i := 0;
    while i < |page.lines|
      invariant 0 <= i <= |page.lines|
      invariant forall i', j' :: IdAt(g, i', j', id) ==> i' >= i
      invariant Grid(page.lines) == g
    {
      var j := 0;
      while j < |page.lines[i].words|
        invariant 0 <= j <= |page.lines[i].words|
        invariant forall j' :: IdAt(g, i, j', id) ==> j' >= j
      {
        if page.lines[i].words[j].id == id {
          FindWordAt(g, id, i, j);
          page.lines[i].words := RemoveAt(page.lines[i].words, j);
          assert Grid(page.lines) == g[i := RemoveAt(g[i], j)];
          return;
        }
        j := j + 1;
      }
      i := i + 1;
    }
    FindWordFirst(g, id);
  }

  // ---------------------------------------------------------------------------
  // Flattening and text

  /** `getPageWords`: all words of the page, line after line. */
  method GetPageWords(page: Page) returns (words: seq<Word>)
    ensures words == Flatten(Grid(page.lines))
  {
    ghost var g := Grid(page.lines);
    words := [];
    var i := 0;
    while i < |page.lines|
      invariant 0 <= i <= |page.lines|
      invariant words == Flatten(g[..i])
    {
      assert g[..i + 1] == g[..i] + [g[i]];
      FlattenSnoc(g[..i], g[i]);
      words := words + page.lines[i].words;
      i := i + 1;
    }
    assert g[..i] == g;
  }

  /** `getLineText`: each word's text followed by one space. */
  function LineText(ws: seq<Word>): string {
    if ws == [] then "" else LineText(ws[..|ws| - 1]) + ws[|ws| - 1].text + " "
  }

  /** The summed length of the words' texts. */
  function TextLength(ws: seq<Word>): nat {
    if ws == [] then 0 else TextLength(ws[..|ws| - 1]) + |ws[|ws| - 1].text|
  }

  /** `getPageText`: the line texts concatenated; no separator is ever inserted. */
  function PageText(g: seq<seq<Word>>): string {
    if g == [] then "" else PageText(g[..|g| - 1]) + LineText(g[|g| - 1])
  }

  /** A line's text is one character longer per word than its words' texts. */
  lemma {:induction false} LineTextLength(ws: seq<Word>)
    ensures |LineText(ws)| == TextLength(ws) + |ws|
  {
    if ws != [] {
      LineTextLength(ws[..|ws| - 1]);
    }
  }

  /** The text of a concatenation of words is the concatenation of their texts. */
  lemma {:induction false} LineTextAppend(a: seq<Word>, b: seq<Word>)
    ensures LineText(a + b) == LineText(a) + LineText(b)
  {
    if b == [] {
      assert a + b == a;
    } else {
      assert (a + b)[..|a + b| - 1] == a + b[..|b| - 1];
      LineTextAppend(a, b[..|b| - 1]);
    }
  }

  /**
   * The page text is the text of all its words in reading order: the
   * newline branch of `getPageText` never fires, so line breaks are lost.
   */
  lemma {:induction false} PageTextIsWordText(g: seq<seq<Word>>)
    ensures PageText(g) == LineText(Flatten(g))
  {
    if g != [] {
      var init, last := g[..|g| - 1], g[|g| - 1];
      assert g == init + [last];
      PageTextIsWordText(init);
      FlattenSnoc(init, last);
      LineTextAppend(Flatten(init), last);
    }
  }

  /** `getLineText`. */
  method GetLineText(line: Line) returns (text: string)
    ensures text == LineText(line.words)
  {
    text := "";
    var i := 0;
    while i < |line.words|
      invariant 0 <= i <= |line.words|
      invariant text == LineText(line.words[..i])
    {
      assert line.words[..i + 1][..i] == line.words[..i];
      text := text + line.words[i].text + " ";
      i := i + 1;
    }
    assert line.words[..i] == line.words;
  }

  /** `getPageText`, including its newline branch guarded by `i < 0`. */
  method GetPageText(page: Page) returns (text: string)
    ensures text == PageText(Grid(page.lines))
  {
    ghost var g := Grid(page.lines);
    text := "";
    var i := 0;
    while i < |page.lines|
      invariant 0 <= i <= |page.lines|
      invariant text == PageText(g[..i])
    {
      assert g[..i + 1][..i] == g[..i];
      if i < 0 {
        text := text + "\n";
      }
      var lineText := GetLineText(page.lines[i]);
      text := text + lineText;
      i := i + 1;
    }
    assert g[..i] == g;
  }

  // ---------------------------------------------------------------------------
  // Copying

  /** The words `ws`, each pointing back at line `l`; every other field kept. */
  function Relinked(ws: seq<Word>, l: Line?): (r: seq<Word>)
    ensures |r| == |ws|
  {
    seq(|ws|, k requires 0 <= k < |ws| => ws[k].(line := l))
  }

  /** Re-pointing words at another line changes neither their text nor their ids. */
  lemma {:induction false} RelinkedKeepsText(ws: seq<Word>, l: Line?, id: string)
    ensures LineText(Relinked(ws, l)) == LineText(ws)
    ensures IndexOfId(Relinked(ws, l), id) == IndexOfId(ws, id)
  {
    if ws != [] {
      assert Relinked(ws, l)[..|ws| - 1] == Relinked(ws[..|ws| - 1], l);
      assert Relinked(ws, l)[1..] == Relinked(ws[1..], l);
      RelinkedKeepsText(ws[..|ws| - 1], l, id);
      RelinkedKeepsText(ws[1..], l, id);
    }
  }

  /**
   * `cloneLine`: a fresh line with fresh copies of the bbox and baseline
   * arrays, empty font-size caches, and a new word record per word that
   * points back at the new line and shares the original word's bbox array.
   */
  method CloneLine(line: Line) returns (lineNew: Line)
    ensures fresh(lineNew) && fresh(lineNew.bbox) && fresh(lineNew.baseline)
    ensures lineNew.bbox[..] == line.bbox[..] && lineNew.baseline[..] == line.baseline[..]
    ensures lineNew.page == line.page
    ensures lineNew.ascHeight == line.ascHeight && lineNew.xHeight == line.xHeight
    ensures lineNew.sizeCalc == None && lineNew.size == None && lineNew.angleAdj == None
    ensures lineNew.words == Relinked(line.words, lineNew)
  {
    var box, base := line.bbox, line.baseline;
    var bbox := new int[box.Length](k requires 0 <= k < box.Length reads box => box[k]);
    var baseline := new real[base.Length](k requires 0 <= k < base.Length reads base => base[k]);
    lineNew := new Line(line.page, bbox, baseline, line.ascHeight, line.xHeight);
    var i := 0;
    while i < |line.words|
      invariant 0 <= i <= |line.words|
      invariant lineNew.bbox == bbox && lineNew.baseline == baseline
      invariant bbox[..] == line.bbox[..] && baseline[..] == line.baseline[..]
      invariant lineNew.page == line.page
      invariant lineNew.ascHeight == line.ascHeight && lineNew.xHeight == line.xHeight
      invariant lineNew.sizeCalc == None && lineNew.size == None && lineNew.angleAdj == None
      invariant lineNew.words == Relinked(line.words[..i], lineNew)
    {
      var word := line.words[i];
      var wordNew := NewWord(lineNew, word.text, word.bbox, word.id);
      wordNew := wordNew.(conf := word.conf, sup := word.sup, dropcap := word.dropcap,
                          font := word.font, size := word.size, style := word.style,
                          compTruth := word.compTruth, matchTruth := word.matchTruth);
      lineNew.words := lineNew.words + [wordNew];
      i := i + 1;
    }
    assert line.words[..i] == line.words;
  }

  /**
   * `cloneWord`: the same word with a fresh copy of its bbox array; the line
   * reference and every other field are kept.
   */
  method CloneWord(word: Word) returns (wordNew: Word)
    ensures fresh(wordNew.bbox) && wordNew.bbox[..] == word.bbox[..]
    ensures wordNew == word.(bbox := wordNew.bbox)
  {
    var box := word.bbox;
    var bbox := new int[box.Length](k requires 0 <= k < box.Length reads box => box[k]);
    wordNew := NewWord(word.line, word.text, bbox, word.id);
    wordNew := wordNew.(conf := word.conf, sup := word.sup, dropcap := word.dropcap,
                        font := word.font, size := word.size, style := word.style,
                        compTruth := word.compTruth, matchTruth := word.matchTruth);
  }
}
