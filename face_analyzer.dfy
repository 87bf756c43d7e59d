/**
  FaceAnalyzer: from the landmarks of one detected face to three ratios and a
  face-shape name.  The landmark detector, image decoding and the drawing
  primitives are outside the model; what remains is the pixel conversion of
  the landmarks, the choice of which mesh connections get drawn, the four
  distances and three ratios, and the first-match search of the rule table.
*/
module FaceAnalyzer {
  import opened Config

  /** A landmark in pixel coordinates, after `int(x * width), int(y * height)`. */
  datatype Point = Point(x: int, y: int)

  /** A landmark as the detector reports it: coordinates normalised to the image size. */
  datatype NormalizedLandmark = NormalizedLandmark(x: real, y: real)

  /** The size of the decoded image (`image.shape`). */
  datatype Frame = Frame(width: nat, height: nat)

  /** An edge of the face mesh: a pair of landmark indices. */
  datatype Connection = Connection(startIndex: nat, endIndex: nat)

  /** The measurements dictionary: exactly the three ratios. */
  datatype Measurements = Measurements(
    widthToLengthRatio: real,
    foreheadToJawlineRatio: real,
    cheekboneToJawlineRatio: real)

  /** What the visualisation shows: a dot per landmark and the drawn mesh edges. */
  datatype Overlay = Overlay(dots: seq<Point>, lines: seq<Connection>)

  /** A successful analysis: face shape, visualisation and measurements. */
  datatype Analysis = Analysis(faceShape: string, visualization: Overlay, measurements: Measurements)

  // The anatomical points of the face mesh that the measurements use.
  const ForeheadMiddle: nat := 10
  const ForeheadLeft: nat := 67
  const CheekLeft: nat := 123
  const Chin: nat := 152
  const JawLeft: nat := 172
  const ForeheadRight: nat := 296
  const CheekRight: nat := 352
  const JawRight: nat := 397

  /** The key landmarks in the order the analysis reads them. */
  const KeyLandmarks: seq<nat> :=
    [ForeheadLeft, ForeheadRight, JawLeft, JawRight, CheekLeft, CheekRight, ForeheadMiddle, Chin]

  /** Every read of a key landmark is in range exactly when the list is longer than 397. */
  lemma KeyLandmarksInRange(n: nat)
    ensures (forall i :: 0 <= i < |KeyLandmarks| ==> KeyLandmarks[i] < n) <==> JawRight < n
  {
    if JawRight < n {
    } else {
      assert KeyLandmarks[3] == JawRight;
    }
  }

  // ---------------------------------------------------------------------------
  // Pixel conversion of the landmarks

  /** Python's `int()` on a float: truncation toward zero. */
  function Trunc(r: real): (t: int)
    ensures 0.0 <= r ==> t as real <= r < t as real + 1.0
    ensures r < 0.0 ==> t as real - 1.0 < r <= t as real
  {
    if 0.0 <= r then r.Floor else -((-r).Floor)
  }

  function PixelOf(l: NormalizedLandmark, frame: Frame): Point {
    Point(Trunc(l.x * frame.width as real), Trunc(l.y * frame.height as real))
  }

  function Pixels(face: seq<NormalizedLandmark>, frame: Frame): (pts: seq<Point>)
    ensures |pts| == |face|
  {
    seq(|face|, i requires 0 <= i < |face| => PixelOf(face[i], frame))
  }

  /** The loop that appends one pixel point per detected landmark. */
  method ToPixels(face: seq<NormalizedLandmark>, frame: Frame) returns (landmarks: seq<Point>)
    ensures landmarks == Pixels(face, frame)
  {
    landmarks := [];
    for i := 0 to |face|
      invariant |landmarks| == i
      invariant forall j :: 0 <= j < i ==> landmarks[j] == PixelOf(face[j], frame)
    {
      var l := face[i];
      var x, y := Trunc(l.x * frame.width as real), Trunc(l.y * frame.height as real);
      landmarks := landmarks + [Point(x, y)];
    }
    assert forall j :: 0 <= j < |face| ==> landmarks[j] == Pixels(face, frame)[j];
  }

  // ---------------------------------------------------------------------------
  // Which mesh connections are drawn

  /** The connections whose two endpoints both index one of the n landmarks, in order. */
  function Drawable(connections: seq<Connection>, n: nat): (r: seq<Connection>)
    ensures |r| <= |connections|
    ensures forall c :: c in r <==> c in connections && c.startIndex < n && c.endIndex < n
  {
    if connections == [] then []
    else
      var c := connections[0];
      var rest := Drawable(connections[1..], n);
      assert forall d :: d in connections <==> d == c || d in connections[1..];
      if c.startIndex < n && c.endIndex < n then [c] + rest else rest
  }

  /** Filtering a concatenation filters each part and keeps their order. */
  lemma {:induction false} DrawableAppend(a: seq<Connection>, b: seq<Connection>, n: nat)
    ensures Drawable(a + b, n) == Drawable(a, n) + Drawable(b, n)
  {
    if a == [] {
      assert a + b == b;
    } else {
      assert (a + b)[1..] == a[1..] + b;
      DrawableAppend(a[1..], b, n);
    }
  }

  /** When every connection is in range, all of them are drawn, in their order. */
  lemma {:induction false} DrawableKeepsInRange(connections: seq<Connection>, n: nat)
    requires forall c :: c in connections ==> c.startIndex < n && c.endIndex < n
    ensures Drawable(connections, n) == connections
  {
    if connections != [] {
      assert forall c :: c in connections[1..] ==> c in connections;
      DrawableKeepsInRange(connections[1..], n);
      assert connections == [connections[0]] + connections[1..];
    }
  }

  /** The drawing loop: a line only where both endpoints are landmarks. */
  method DrawMesh(landmarks: seq<Point>, connections: seq<Connection>) returns (lines: seq<Connection>)
    ensures lines == Drawable(connections, |landmarks|)
  {
    lines := [];
    for i := 0 to |connections|
      invariant lines == Drawable(connections[..i], |landmarks|)
    {
      var c := connections[i];
      if c.startIndex < |landmarks| && c.endIndex < |landmarks| {
        lines := lines + [c];
      }
      assert connections[..i + 1] == connections[..i] + [c];
      DrawableAppend(connections[..i], [c], |landmarks|);
    }
    assert connections[..|connections|] == connections;
  }

  // ---------------------------------------------------------------------------
  // Distances and ratios

  function SquaredDistance(p: Point, q: Point): (d: int)
    ensures 0 <= d
  {
    (p.x - q.x) * (p.x - q.x) + (p.y - q.y) * (p.y - q.y)
  }

  /** What the model asks of the square root it is given: the non-negative root
      (the root of zero is spelt out; it follows from the rest, but not cheaply). */
  ghost predicate IsSqrt(sqrt: real -> real) {
    && sqrt(0.0) == 0.0
    && forall x :: 0.0 <= x ==> 0.0 <= sqrt(x) && sqrt(x) * sqrt(x) == x
  }

  /** Euclidean distance, with the square root supplied by the caller: for a true
      root, the non-negative number whose square is the sum of squared differences. */
  function Distance(sqrt: real -> real, p: Point, q: Point): (d: real)
    ensures IsSqrt(sqrt) ==> 0.0 <= d && d * d == SquaredDistance(p, q) as real
  {
    sqrt(SquaredDistance(p, q) as real)
  }

  lemma DistanceSymmetric(sqrt: real -> real, p: Point, q: Point)
    ensures Distance(sqrt, p, q) == Distance(sqrt, q, p)
  {
    assert SquaredDistance(p, q) == SquaredDistance(q, p);
  }

  /** The squared distance of two pixel points is zero exactly when they coincide. */
  lemma SquaredDistanceZeroIff(p: Point, q: Point)
    ensures SquaredDistance(p, q) == 0 <==> p == q
  {
    var dx, dy := p.x - q.x, p.y - q.y;
    if dx != 0 {
      assert 0 < dx * dx;
    } else if dy != 0 {
      assert 0 < dy * dy;
    }
  }

  /** A non-negative root is zero exactly at zero. */
  lemma RootZeroIff(sqrt: real -> real, x: real)
    requires IsSqrt(sqrt) && 0.0 <= x
    ensures 0.0 <= sqrt(x)
    ensures sqrt(x) == 0.0 <==> x == 0.0
  {
    var r := sqrt(x);
    assert 0.0 <= r && r * r == x;
  }

  /** The distance is never negative, and zero exactly for identical points. */
  lemma DistanceZeroIffSame(sqrt: real -> real, p: Point, q: Point)
    requires IsSqrt(sqrt)
    ensures 0.0 <= Distance(sqrt, p, q)
    ensures Distance(sqrt, p, q) == 0.0 <==> p == q
  {
    SquaredDistanceZeroIff(p, q);
    RootZeroIff(sqrt, SquaredDistance(p, q) as real);
  }

  predicate HasKeyLandmarks(landmarks: seq<Point>) {
    JawRight < |landmarks|
  }

  function ForeheadWidth(sqrt: real -> real, landmarks: seq<Point>): real
    requires HasKeyLandmarks(landmarks)
  {
    Distance(sqrt, landmarks[ForeheadLeft], landmarks[ForeheadRight])
  }

  function JawlineWidth(sqrt: real -> real, landmarks: seq<Point>): real
    requires HasKeyLandmarks(landmarks)
  {
    Distance(sqrt, landmarks[JawLeft], landmarks[JawRight])
  }

  function CheekboneWidth(sqrt: real -> real, landmarks: seq<Point>): real
    requires HasKeyLandmarks(landmarks)
  {
    Distance(sqrt, landmarks[CheekLeft], landmarks[CheekRight])
  }

  function FaceLength(sqrt: real -> real, landmarks: seq<Point>): real
    requires HasKeyLandmarks(landmarks)
  {
    Distance(sqrt, landmarks[ForeheadMiddle], landmarks[Chin])
  }

  /** The two denominators of the ratios are non-zero. */
  predicate NonDegenerate(sqrt: real -> real, landmarks: seq<Point>)
    requires HasKeyLandmarks(landmarks)
  {
    FaceLength(sqrt, landmarks) != 0.0 && JawlineWidth(sqrt, landmarks) != 0.0
  }

  /** With a true square root, the geometry is degenerate exactly when the
      forehead middle meets the chin or the two jaw points coincide. */
  lemma NonDegenerateIff(sqrt: real -> real, landmarks: seq<Point>)
    requires IsSqrt(sqrt) && HasKeyLandmarks(landmarks)
    ensures NonDegenerate(sqrt, landmarks) <==>
      landmarks[ForeheadMiddle] != landmarks[Chin] && landmarks[JawLeft] != landmarks[JawRight]
  {
    DistanceZeroIffSame(sqrt, landmarks[ForeheadMiddle], landmarks[Chin]);
    DistanceZeroIffSame(sqrt, landmarks[JawLeft], landmarks[JawRight]);
  }

  /** The three ratios, each the quotient of its two distances. */
  function MeasureRatios(sqrt: real -> real, landmarks: seq<Point>): (m: Measurements)
    requires HasKeyLandmarks(landmarks) && NonDegenerate(sqrt, landmarks)
    ensures m.widthToLengthRatio * FaceLength(sqrt, landmarks) == CheekboneWidth(sqrt, landmarks)
    ensures m.foreheadToJawlineRatio * JawlineWidth(sqrt, landmarks) == ForeheadWidth(sqrt, landmarks)
    ensures m.cheekboneToJawlineRatio * JawlineWidth(sqrt, landmarks) == CheekboneWidth(sqrt, landmarks)
  {
    var foreheadWidth := ForeheadWidth(sqrt, landmarks);
    var jawlineWidth := JawlineWidth(sqrt, landmarks);
    var cheekboneWidth := CheekboneWidth(sqrt, landmarks);
    var faceLength := FaceLength(sqrt, landmarks);
    Measurements(cheekboneWidth / faceLength, foreheadWidth / jawlineWidth, cheekboneWidth / jawlineWidth)
  }

  /** Only the eight key landmarks influence the ratios. */
  lemma RatiosDependOnKeyLandmarksOnly(sqrt: real -> real, a: seq<Point>, b: seq<Point>)
    requires HasKeyLandmarks(a) && NonDegenerate(sqrt, a)
    requires HasKeyLandmarks(b)
    requires forall i :: 0 <= i < |KeyLandmarks| ==> a[KeyLandmarks[i]] == b[KeyLandmarks[i]]
    ensures NonDegenerate(sqrt, b) && MeasureRatios(sqrt, a) == MeasureRatios(sqrt, b)
  {
    assert a[KeyLandmarks[0]] == b[KeyLandmarks[0]] && a[KeyLandmarks[1]] == b[KeyLandmarks[1]];
    assert a[KeyLandmarks[2]] == b[KeyLandmarks[2]] && a[KeyLandmarks[3]] == b[KeyLandmarks[3]];
    assert a[KeyLandmarks[4]] == b[KeyLandmarks[4]] && a[KeyLandmarks[5]] == b[KeyLandmarks[5]];
    assert a[KeyLandmarks[6]] == b[KeyLandmarks[6]] && a[KeyLandmarks[7]] == b[KeyLandmarks[7]];
  }

  /** With a true square root the three ratios are positive-or-zero. */
  lemma RatiosNonNegative(sqrt: real -> real, landmarks: seq<Point>)
    requires IsSqrt(sqrt) && HasKeyLandmarks(landmarks) && NonDegenerate(sqrt, landmarks)
    ensures var m := MeasureRatios(sqrt, landmarks);
      0.0 <= m.widthToLengthRatio && 0.0 <= m.foreheadToJawlineRatio && 0.0 <= m.cheekboneToJawlineRatio
  {
    var m := MeasureRatios(sqrt, landmarks);
    DistanceZeroIffSame(sqrt, landmarks[ForeheadLeft], landmarks[ForeheadRight]);
    DistanceZeroIffSame(sqrt, landmarks[JawLeft], landmarks[JawRight]);
    DistanceZeroIffSame(sqrt, landmarks[CheekLeft], landmarks[CheekRight]);
    DistanceZeroIffSame(sqrt, landmarks[ForeheadMiddle], landmarks[Chin]);
  }

  // ---------------------------------------------------------------------------
  // Classification

  /** All three ratios lie in their entry's inclusive ranges. */
  predicate Matches(c: Criteria, m: Measurements)
    ensures Matches(c, m) ==>
      && c.widthToLength.low <= c.widthToLength.high
      && c.foreheadToJawline.low <= c.foreheadToJawline.high
      && c.cheekboneToJawline.low <= c.cheekboneToJawline.high
  {
    && c.widthToLength.Contains(m.widthToLengthRatio)
    && c.foreheadToJawline.Contains(m.foreheadToJawlineRatio)
    && c.cheekboneToJawline.Contains(m.cheekboneToJawlineRatio)
  }

  /** The index of the first entry that matches, or |table| when none does. */
  function FirstMatch(table: Table, m: Measurements): (k: nat)
    ensures k <= |table|
    ensures k < |table| ==> Matches(table[k].criteria, m)
    ensures forall j :: 0 <= j < k ==> !Matches(table[j].criteria, m)
  {
    if table == [] then 0
    else if Matches(table[0].criteria, m) then 0
    else 1 + FirstMatch(table[1..], m)
  }

  /** The shape the classifier reports: the first matching entry's name, else OVAL. */
  function Classify(table: Table, m: Measurements): (shape: string)
    ensures shape in Keys(table) || shape == Oval
  {
    var k := FirstMatch(table, m);
    if k < |table| then table[k].name else Oval
  }

  /** `_determine_face_shape`: the loop over the table with its early return. */
  method DetermineFaceShape(table: Table, m: Measurements) returns (shape: string)
    ensures shape == Classify(table, m)
  {
    for i := 0 to |table|
      invariant forall j :: 0 <= j < i ==> !Matches(table[j].criteria, m)
    {
      var criteria := table[i].criteria;
      var widthLengthRange := criteria.widthToLength;
      var foreheadJawRange := criteria.foreheadToJawline;
      var cheekJawRange := criteria.cheekboneToJawline;
      if widthLengthRange.low <= m.widthToLengthRatio <= widthLengthRange.high
        && foreheadJawRange.low <= m.foreheadToJawlineRatio <= foreheadJawRange.high
        && cheekJawRange.low <= m.cheekboneToJawlineRatio <= cheekJawRange.high
      {
        return table[i].name;
      }
    }
    return Oval;
  }

  /** An entry that matches with no matching entry before it is the one reported. */
  lemma ClassifyIsFirstMatch(table: Table, m: Measurements, k: nat)
    requires k < |table| && Matches(table[k].criteria, m)
    requires forall j :: 0 <= j < k ==> !Matches(table[j].criteria, m)
    ensures Classify(table, m) == table[k].name
  {
  }

  /** The reported name is a matching entry with none before it, or else no entry matches and it is OVAL. */
  lemma ClassifyCases(table: Table, m: Measurements)
    ensures || (exists k :: 0 <= k < |table| && Matches(table[k].criteria, m)
                  && (forall j :: 0 <= j < k ==> !Matches(table[j].criteria, m))
                  && Classify(table, m) == table[k].name)
            || ((forall j :: 0 <= j < |table| ==> !Matches(table[j].criteria, m))
                  && Classify(table, m) == Oval)
  {
    var k := FirstMatch(table, m);
    if k < |table| {
      assert Classify(table, m) == table[k].name;
    }
  }

  /** When no entry matches in all three ratios, the result is OVAL. */
  lemma ClassifyDefaultsToOval(table: Table, m: Measurements)
    requires forall j :: 0 <= j < |table| ==> !Matches(table[j].criteria, m)
    ensures Classify(table, m) == Oval
  {
  }

  /** The ranges are closed: a ratio at either end of its range satisfies it. */
  lemma MatchesAtBounds(c: Criteria, m: Measurements)
    requires c.widthToLength.low <= c.widthToLength.high
    requires c.foreheadToJawline.low <= c.foreheadToJawline.high
    requires c.cheekboneToJawline.low <= c.cheekboneToJawline.high
    requires m.widthToLengthRatio == c.widthToLength.low || m.widthToLengthRatio == c.widthToLength.high
    requires m.foreheadToJawlineRatio == c.foreheadToJawline.low || m.foreheadToJawlineRatio == c.foreheadToJawline.high
    requires m.cheekboneToJawlineRatio == c.cheekboneToJawline.low || m.cheekboneToJawlineRatio == c.cheekboneToJawline.high
    ensures Matches(c, m)
  {
  }

  /** Table order decides between overlapping entries: swapping them swaps the result. */
  lemma ClassifyOrderMatters(first: Entry, second: Entry, m: Measurements)
    requires Matches(first.criteria, m) && Matches(second.criteria, m)
    ensures Classify([first, second], m) == first.name
    ensures Classify([second, first], m) == second.name
  {
  }

  /** With OVAL in the table, every reported shape is a key of the table. */
  lemma ClassifyYieldsKey(table: Table, m: Measurements)
    requires Oval in Keys(table)
    ensures Classify(table, m) in Keys(table)
  {
  }

  // ---------------------------------------------------------------------------
  // The whole analysis

  /** The analysis of one image.  `image` is None when the bytes do not decode;
      `faces` is what the detector found in it, empty when it found no face. */
  method AnalyzeFaceShape(
    sqrt: real -> real, image: Option<Frame>, faces: seq<seq<NormalizedLandmark>>,
    connections: seq<Connection>, table: Table)
    returns (r: Option<Analysis>)
    requires image.Some? && |faces| > 0 && HasKeyLandmarks(Pixels(faces[0], image.value))
      ==> NonDegenerate(sqrt, Pixels(faces[0], image.value))
    ensures r.None? <==> image.None? || |faces| == 0 || |faces[0]| <= JawRight
    ensures r.Some? ==>
      var landmarks := Pixels(faces[0], image.value);
      && HasKeyLandmarks(landmarks) && NonDegenerate(sqrt, landmarks)
      && r.value.measurements == MeasureRatios(sqrt, landmarks)
      && r.value.faceShape == Classify(table, r.value.measurements)
      && r.value.visualization == Overlay(landmarks, Drawable(connections, |landmarks|))
  {
    if image.None? || |faces| == 0 {
      return None;
    }
    var landmarks := ToPixels(faces[0], image.value);
    var lines := DrawMesh(landmarks, connections);
    if !HasKeyLandmarks(landmarks) {
      // the first out-of-range landmark read raises, and the handler returns nothing
      return None;
    }
    var measurements := MeasureRatios(sqrt, landmarks);
    var faceShape := DetermineFaceShape(table, measurements);
    return Some(Analysis(faceShape, Overlay(landmarks, lines), measurements));
  }
}
