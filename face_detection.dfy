/**
 * The part of face detection that follows inference
 * (src/core/face_detection.rs): the detector's flat regression output is cut
 * into rows of 16, each row is decoded against its anchor, the first anchor
 * with the highest score wins, a winning score below 0.9 means no face, and
 * the winning box is scaled by 128.
 *
 * Coordinates and scores are reals (no f32 rounding); scores are taken after
 * the logistic function. The anchor table is a parameter.
 */
module FaceDetection {

  import opened Wrappers
  import opened Errors

  /** The detector's input resolution, which is also the decoding scale. */
  const IMAGE_SCALE: real := 128.0
  const FACE_DETECTION_MIN_SCORE: real := 0.9
  /** Floats per detection row. */
  const ROW: nat := 16

  /** One row of the anchor table: `[x_center, y_center, x_scale, y_scale]`. */
  datatype Anchor = Anchor(xCenter: real, yCenter: real, xScale: real, yScale: real)

  /**
   * The box decoded from one detection row and its anchor, as
   * `[xmin, ymin, xmax, ymax]`: centred on the anchor-relative centre, with
   * the anchor-scaled width and height.
   */
  function DecodeBox(element: seq<real>, anchor: Anchor): (b: seq<real>)
    requires |element| >= 4
    ensures |b| == 4
    ensures (b[0] + b[2]) / 2.0 == element[0] / IMAGE_SCALE * anchor.xScale + anchor.xCenter
    ensures (b[1] + b[3]) / 2.0 == element[1] / IMAGE_SCALE * anchor.yScale + anchor.yCenter
    ensures b[2] - b[0] == element[2] / IMAGE_SCALE * anchor.xScale
    ensures b[3] - b[1] == element[3] / IMAGE_SCALE * anchor.yScale
  {
    var xCenter := element[0] / IMAGE_SCALE * anchor.xScale + anchor.xCenter;
    var yCenter := element[1] / IMAGE_SCALE * anchor.yScale + anchor.yCenter;
    var width := element[2] / IMAGE_SCALE * anchor.xScale;
    var height := element[3] / IMAGE_SCALE * anchor.yScale;
    [xCenter - width / 2.0, yCenter - height / 2.0, xCenter + width / 2.0, yCenter + height / 2.0]
  }

  /**
   * `xmin <= xmax` holds exactly when the raw width and the anchor's x scale
   * do not have opposite signs, and likewise for y: decoding does not enforce
   * it.
   */
  lemma BoxOrderedIff(element: seq<real>, anchor: Anchor)
    requires |element| >= 4
    ensures var b := DecodeBox(element, anchor);
      && (b[0] <= b[2] <==> element[2] * anchor.xScale >= 0.0)
      && (b[1] <= b[3] <==> element[3] * anchor.yScale >= 0.0)
  {
    var b := DecodeBox(element, anchor);
    assert b[2] - b[0] == (element[2] * anchor.xScale) / IMAGE_SCALE;
    assert b[3] - b[1] == (element[3] * anchor.yScale) / IMAGE_SCALE;
  }

  /**
   * `decode_boxes`: one box per (row, anchor) pair of the zip, so as many
   * boxes as the shorter of the two, in order, box `i` from row `i` and
   * anchor `i` alone. Each zipped row must have four values (indexing panics
   * otherwise).
   */
  method DecodeBoxes(boxes: seq<seq<real>>, anchors: seq<Anchor>) returns (decodedBoxes: seq<seq<real>>)
    requires forall i :: 0 <= i < |boxes| && i < |anchors| ==> |boxes[i]| >= 4
    ensures |decodedBoxes| == Min(|boxes|, |anchors|)
    ensures forall i :: 0 <= i < |decodedBoxes| ==> decodedBoxes[i] == DecodeBox(boxes[i], anchors[i])
  {
    decodedBoxes := [];
    var i := 0;
    while i < |boxes| && i < |anchors|
      invariant i <= Min(|boxes|, |anchors|)
      invariant |decodedBoxes| == i
      invariant forall j :: 0 <= j < i ==> decodedBoxes[j] == DecodeBox(boxes[j], anchors[j])
    {
      var element, anchor := boxes[i], anchors[i];
      var xCenter := element[0] / IMAGE_SCALE * anchor.xScale + anchor.xCenter;
      var yCenter := element[1] / IMAGE_SCALE * anchor.yScale + anchor.yCenter;
      var width := element[2] / IMAGE_SCALE * anchor.xScale;
      var height := element[3] / IMAGE_SCALE * anchor.yScale;
      var decodedBox := [xCenter - width / 2.0, yCenter - height / 2.0, xCenter + width / 2.0, yCenter + height / 2.0];
      assert decodedBox == DecodeBox(element, anchor) by {
        var b := DecodeBox(element, anchor);
        assert b[0] == decodedBox[0] && b[1] == decodedBox[1];
        assert b[2] == decodedBox[2] && b[3] == decodedBox[3];
      }
      decodedBoxes := decodedBoxes + [decodedBox];
      i := i + 1;
    }
  }

  /**
   * `chunks(16)`: `ceil(n / 16)` rows, row `i` holding the values from
   * `16 * i`, every row full except possibly the last, which is never empty.
   */
  function Chunks(s: seq<real>): (c: seq<seq<real>>)
    ensures |c| == (|s| + ROW - 1) / ROW
    ensures forall i :: 0 <= i < |c| ==> c[i] == s[ROW * i .. Min(ROW * i + ROW, |s|)]
    ensures forall i :: 0 <= i < |c| ==> 0 < |c[i]| <= ROW && (i < |c| - 1 ==> |c[i]| == ROW)
    decreases |s|
  {
    if |s| == 0 then []
    else if |s| <= ROW then [s]
    else [s[..ROW]] + Chunks(s[ROW..])
  }

  function Flatten(c: seq<seq<real>>): seq<real>
  {
    if |c| == 0 then [] else c[0] + Flatten(c[1..])
  }

  /** Cutting into rows loses and reorders nothing. */
  lemma {:induction false} ChunksFlatten(s: seq<real>)
    ensures Flatten(Chunks(s)) == s
    decreases |s|
  {
    if |s| > ROW {
      var c := Chunks(s);
      assert c[0] == s[..ROW];
      assert c[1..] == Chunks(s[ROW..]);
      ChunksFlatten(s[ROW..]);
      assert s == s[..ROW] + s[ROW..];
    } else if |s| > 0 {
      var c := Chunks(s);
      assert c[1..] == [];
    }
  }

  /** `k` is the first index holding the maximum of `s`. */
  predicate IsFirstMax(s: seq<real>, k: nat)
  {
    && k < |s|
    && (forall j :: 0 <= j < |s| ==> s[j] <= s[k])
    && (forall j :: 0 <= j < k ==> s[j] < s[k])
  }

  /** A linear scan keeping the best index, replacing it only on a strictly larger score. */
  function FirstArgMax(s: seq<real>): (k: nat)
    requires |s| > 0
    ensures IsFirstMax(s, k)
  {
    if |s| == 1 then 0
    else
      var k := FirstArgMax(s[..|s| - 1]);
      if s[|s| - 1] > s[k] then |s| - 1 else k
  }

  /** An anchor that outscores every other one is the one selected. */
  lemma StrictlyBestIsSelected(s: seq<real>, k: nat)
    requires k < |s|
    requires forall j :: 0 <= j < |s| && j != k ==> s[j] < s[k]
    ensures FirstArgMax(s) == k
  {
  }

  /** The scan of `detect_face` over the scores: it finds the first maximum. */
  method BestScoreIndex(faceScores: seq<real>) returns (bestScoreIndex: nat)
    requires |faceScores| > 0
    ensures bestScoreIndex == FirstArgMax(faceScores)
  {
    bestScoreIndex := 0;
    for i := 0 to |faceScores|
      invariant i == 0 ==> bestScoreIndex == 0
      invariant i > 0 ==> bestScoreIndex == FirstArgMax(faceScores[..i])
    {
      if faceScores[i] > faceScores[bestScoreIndex] {
        bestScoreIndex := i;
      }
      assert faceScores[..i + 1][..i] == faceScores[..i];
    }
    assert faceScores[..|faceScores|] == faceScores;
  }

  /**
   * The post-inference part of `detect_face`. Indexing requires a score, four
   * values in every zipped row, and, once the best score passes the
   * threshold, a decoded box at the winning index.
   */
  method DetectFace(faceDetections: seq<real>, faceScores: seq<real>, anchors: seq<Anchor>) returns (r: Result<seq<real>, ZkError>)
    requires |faceScores| > 0
    requires forall i :: 0 <= i < |Chunks(faceDetections)| && i < |anchors| ==> |Chunks(faceDetections)[i]| >= 4
    requires faceScores[FirstArgMax(faceScores)] >= FACE_DETECTION_MIN_SCORE
             ==> FirstArgMax(faceScores) < Min(|Chunks(faceDetections)|, |anchors|)
    ensures r.Err? <==> forall j :: 0 <= j < |faceScores| ==> faceScores[j] < FACE_DETECTION_MIN_SCORE
    ensures r.Err? ==> r.error == FaceNotFound
    ensures r.Ok? ==>
      var k := FirstArgMax(faceScores);
      var box := DecodeBox(Chunks(faceDetections)[k], anchors[k]);
      |r.value| == 4 && forall c :: 0 <= c < 4 ==> r.value[c] == IMAGE_SCALE * box[c]
  {
    var boxes := Chunks(faceDetections);
    var decodedBoxes := DecodeBoxes(boxes, anchors);

    var bestScoreIndex := BestScoreIndex(faceScores);

    if faceScores[bestScoreIndex] < FACE_DETECTION_MIN_SCORE {
      return Err(FaceNotFound);
    }

    var bestBox := decodedBoxes[bestScoreIndex];
    var xMin := IMAGE_SCALE * bestBox[0];
    var yMin := IMAGE_SCALE * bestBox[1];
    var xMax := IMAGE_SCALE * bestBox[2];
    var yMax := IMAGE_SCALE * bestBox[3];
    r := Ok([xMin, yMin, xMax, yMax]);
  }
}
