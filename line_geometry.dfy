/**
 * Line geometry from js/ocrObjects.js: the line box recomputed as the union
 * of its word boxes (`calcLineBbox`), the early-return guard of
 * `rotateLine`, and the write-once memo of `calcLineAngleAdj`. The
 * trigonometry that rotates boxes and baselines is not part of this model.
 */
module LineGeometry {
  import opened JsValues
  import opened OcrObjects

  /** `Math.min(...xs)` on a non-empty list. */
  function MinOf(xs: seq<int>): (m: int)
    requires |xs| > 0
    ensures m in xs
    ensures forall k :: 0 <= k < |xs| ==> m <= xs[k]
  {
    if |xs| == 1 then xs[0]
    else
      var rest := MinOf(xs[1..]);
      if xs[0] <= rest then xs[0] else rest
  }

  /** `Math.max(...xs)` on a non-empty list. */
  function MaxOf(xs: seq<int>): (m: int)
    requires |xs| > 0
    ensures m in xs
    ensures forall k :: 0 <= k < |xs| ==> xs[k] <= m
  {
    if |xs| == 1 then xs[0]
    else
      var rest := MaxOf(xs[1..]);
      if xs[0] >= rest then xs[0] else rest
  }

  /** Every word's bbox is a four-element array. */
  ghost predicate FourSided(ws: seq<Word>) {
    forall w :: w in ws ==> w.bbox.Length == 4
  }

  /** `line.words.map(x => x.bbox)`, read as boxes. */
  function WordBoxes(ws: seq<Word>): (bs: seq<Box>)
    requires forall w :: w in ws ==> w.bbox.Length == 4
    reads set w | w in ws :: w.bbox
    ensures |bs| == |ws|
    ensures forall k :: 0 <= k < |ws| ==> bs[k] == BoxOf(ws[k].bbox)
  {
    if ws == [] then [] else [BoxOf(ws[0].bbox)] + WordBoxes(ws[1..])
  }

  function Lefts(bs: seq<Box>): (r: seq<int>)
    ensures |r| == |bs| && forall k :: 0 <= k < |bs| ==> r[k] == bs[k].left
  {
    seq(|bs|, k requires 0 <= k < |bs| => bs[k].left)
  }

  function Tops(bs: seq<Box>): (r: seq<int>)
    ensures |r| == |bs| && forall k :: 0 <= k < |bs| ==> r[k] == bs[k].top
  {
    seq(|bs|, k requires 0 <= k < |bs| => bs[k].top)
  }

  function Rights(bs: seq<Box>): (r: seq<int>)
    ensures |r| == |bs| && forall k :: 0 <= k < |bs| ==> r[k] == bs[k].right
  {
    seq(|bs|, k requires 0 <= k < |bs| => bs[k].right)
  }

  function Bottoms(bs: seq<Box>): (r: seq<int>)
    ensures |r| == |bs| && forall k :: 0 <= k < |bs| ==> r[k] == bs[k].bottom
  {
    seq(|bs|, k requires 0 <= k < |bs| => bs[k].bottom)
  }

  /** Box `outer` encloses box `inner`. */
  predicate Contains(outer: Box, inner: Box) {
    outer.left <= inner.left && outer.top <= inner.top &&
    inner.right <= outer.right && inner.bottom <= outer.bottom
  }

  /**
   * The coordinate-wise union of boxes: it encloses every box, and each of
   * its sides is a side of some box.
   */
  function Union(bs: seq<Box>): (u: Box)
    requires |bs| > 0
    ensures forall k :: 0 <= k < |bs| ==> Contains(u, bs[k])
    ensures exists k :: 0 <= k < |bs| && u.left == bs[k].left
    ensures exists k :: 0 <= k < |bs| && u.top == bs[k].top
    ensures exists k :: 0 <= k < |bs| && u.right == bs[k].right
    ensures exists k :: 0 <= k < |bs| && u.bottom == bs[k].bottom
  {
    Box(MinOf(Lefts(bs)), MinOf(Tops(bs)), MaxOf(Rights(bs)), MaxOf(Bottoms(bs)))
  }

  /** The union is the smallest box enclosing all the boxes. */
  lemma UnionIsLeast(bs: seq<Box>, c: Box)
    requires |bs| > 0
    requires forall k :: 0 <= k < |bs| ==> Contains(c, bs[k])
    ensures Contains(c, Union(bs))
  {
    var u := Union(bs);
    var kl :| 0 <= kl < |bs| && u.left == bs[kl].left;
    var kt :| 0 <= kt < |bs| && u.top == bs[kt].top;
    var kr :| 0 <= kr < |bs| && u.right == bs[kr].right;
    var kb :| 0 <= kb < |bs| && u.bottom == bs[kb].bottom;
    assert Contains(c, bs[kl]) && Contains(c, bs[kt]) && Contains(c, bs[kr]) && Contains(c, bs[kb]);
  }

  /**
   * `calcLineBbox`: sets the line's bbox to a new array holding the union
   * of its word boxes; only the line's `bbox` field changes, so the words
   * and their boxes are left as they were.
   */
  method CalcLineBbox(line: Line)
    requires |line.words| > 0
    requires forall w :: w in line.words ==> w.bbox.Length == 4
    modifies line`bbox
    ensures fresh(line.bbox) && line.bbox.Length == 4
    ensures BoxOf(line.bbox) == Union(old(WordBoxes(line.words)))
  {
    var wordBoxArr := WordBoxes(line.words);
    var left, top := MinOf(Lefts(wordBoxArr)), MinOf(Tops(wordBoxArr));
    var right, bottom := MaxOf(Rights(wordBoxArr)), MaxOf(Bottoms(wordBoxArr));
    var lineBoxNew := new int[4] [left, top, right, bottom];
    line.bbox := lineBoxNew;
    assert BoxOf(line.bbox) == Union(wordBoxArr) by {
      assert BoxOf(line.bbox) == Box(left, top, right, bottom);
    }
  }

  /** After `calcLineBbox`, every word box lies inside the line box. */
  lemma LineBoxEnclosesWords(ws: seq<Word>, lineBox: Box)
    requires |ws| > 0 && FourSided(ws)
    requires lineBox == Union(WordBoxes(ws))
    ensures forall k :: 0 <= k < |ws| ==> Contains(lineBox, BoxOf(ws[k].bbox))
  {
  }

  /** Two words with boxes [0,0,10,10] and [12,0,20,12] give the line box [0,0,20,12]. */
  lemma UnionExample()
    ensures Union([Box(0, 0, 10, 10), Box(12, 0, 20, 12)]) == Box(0, 0, 20, 12)
  {
    var bs := [Box(0, 0, 10, 10), Box(12, 0, 20, 12)];
    assert Lefts(bs) == [0, 12] && Tops(bs) == [0, 0];
    assert Rights(bs) == [10, 20] && Bottoms(bs) == [10, 12];
  }

  // ---------------------------------------------------------------------------
  // Rotation guards

  /**
   * The early-return test of `rotateLine` as written: `angle <= 0.05`, with
   * no absolute value, so every negative angle also leaves the line as it is.
   */
  predicate RotateLineSkips(angle: real)
    ensures RotateLineSkips(angle) <==> NegligibleAngle(angle) || angle < -0.05
  {
    angle <= 0.05
  }

  /** `Math.abs` on reals. */
  function Abs(x: real): real {
    if x < 0.0 then -x else x
  }

  /** The dead zone of `calcLineAngleAdj`, `Math.abs(angle) <= 0.05`: an interval around zero. */
  predicate NegligibleAngle(angle: real)
    ensures NegligibleAngle(angle) <==> -0.05 <= angle <= 0.05
  {
    Abs(angle) <= 0.05
  }

  /**
   * The guard of `rotateLine` as written skips every negative angle, so a
   * skew of -1 degree is not corrected although `calcLineAngleAdj` treats it
   * as significant.
   */
  lemma RotateLineSkipsNegativeAngles(angle: real)
    requires angle < 0.0
    ensures RotateLineSkips(angle)
    ensures angle < -0.05 ==> !NegligibleAngle(angle)
  {
  }

  /** The concrete input that shows the discrepancy: -1 degree. */
  lemma RotateLineGuardCounterexample()
    ensures RotateLineSkips(-1.0) && !NegligibleAngle(-1.0)
  {
  }

  /**
   * The symmetric dead zone: it treats an angle and its negation alike, it
   * contains 0.04, and it agrees with `rotateLine`'s guard on every angle
   * that is not negative.
   */
  lemma NegligibleAngleSymmetric(angle: real)
    ensures NegligibleAngle(angle) <==> NegligibleAngle(-angle)
    ensures angle >= 0.0 ==> (NegligibleAngle(angle) <==> RotateLineSkips(angle))
    ensures NegligibleAngle(0.04) && NegligibleAngle(-0.04)
  {
  }

  // ---------------------------------------------------------------------------
  // The rotation-placement memo

  /**
   * The value `calcLineAngleAdj` returns: the memo if one is set; otherwise
   * zero in the dead zone and the rotation offset `rotated` (computed by
   * the trigonometric formula, not modelled) outside it.
   */
  function AngleAdj(memo: Option<Offset>, angle: real, rotated: Offset): Offset {
    if memo.Some? then memo.value
    else if NegligibleAngle(angle) then Offset(0.0, 0.0)
    else rotated
  }

  /**
   * The memo is write-once: once set, later calls return the first value
   * whatever the page angle or rotation offset they see.
   */
  lemma AngleAdjWriteOnce(memo: Option<Offset>, angle1: real, rotated1: Offset, angle2: real, rotated2: Offset)
    ensures AngleAdj(Some(AngleAdj(memo, angle1, rotated1)), angle2, rotated2) == AngleAdj(memo, angle1, rotated1)
    ensures memo.None? && NegligibleAngle(angle1) ==> AngleAdj(memo, angle1, rotated1) == Offset(0.0, 0.0)
  {
  }

  /**
   * `calcLineAngleAdj`: computes the offset on the first call, caches it on
   * the line and returns the cached value on every later call.
   */
  method CalcLineAngleAdj(line: Line, rotated: Offset) returns (adj: Offset)
    requires line.page != null
    modifies line`angleAdj
    ensures adj == AngleAdj(old(line.angleAdj), line.page.angle, rotated)
    ensures line.angleAdj == Some(adj)
    ensures old(line.angleAdj).Some? ==> line.angleAdj == old(line.angleAdj)
  {
    if line.angleAdj.None? {
      line.angleAdj := Some(Offset(0.0, 0.0));
      var angle := line.page.angle;
      if !NegligibleAngle(angle) {
        line.angleAdj := Some(rotated);
      }
    }
    adj := line.angleAdj.value;
  }
}
