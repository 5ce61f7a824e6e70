/**
 * The `/detect-face` and `/expressions` endpoints of the service
 * (backend/api.py): what is reported about the first face of an uploaded
 * frame, and the static list of expressions with their colours.
 */
module FaceEndpoint {
  import opened Wrappers
  import opened Expression
  import ApiClassifier

  type Pos = n: nat | n > 0 witness 1

  /** A face rectangle as the detector returns it: corner, width and height in pixels. */
  datatype Box = Box(x: nat, y: nat, w: nat, h: nat)

  /** The pixel count of a face rectangle, `w * h`. */
  function BoxArea(b: Box): nat {
    NonNegativeProduct(b.w, b.h);
    b.w * b.h
  }

  lemma NonNegativeProduct(m: nat, n: nat)
    ensures m * n >= 0
  {
  }

  /** A detected face: its rectangle and the features measured inside it. */
  datatype Face = Face(box: Box, features: Features)

  /**
   * A decoded frame: its size and the faces the frontal-face detector finds
   * in it, in the detector's order. A decoded image always has pixels, so
   * both dimensions are positive.
   */
  datatype Frame = Frame(height: Pos, width: Pos, faces: seq<Face>)

  /** The JSON object the endpoint answers with. */
  datatype FaceReport = FaceReport(
    faceDetected: bool,
    expression: string,
    confidence: real,
    colour: Rgb,
    faceCount: nat,
    dimensions: Option<Box>)

  /** The answer for an undecodable frame and for a frame without a face. */
  const NoFace: FaceReport := FaceReport(false, "Neutral \U{1F60A}", 0.0, Rgb(200, 200, 200), 0, None)

  /** `min(face_area / frame_area * 5, 1.0)`, over the reals. */
  function Confidence(faceArea: nat, frameArea: Pos): (c: real)
    ensures 0.0 <= c <= 1.0
    ensures c == 1.0 <==> 5 * faceArea >= frameArea
    ensures c < 1.0 ==> c * frameArea as real == 5.0 * faceArea as real
  {
    var scaled := faceArea as real / frameArea as real * 5.0;
    ScaledArea(faceArea as real, frameArea as real);
    if 1.0 < scaled then 1.0 else scaled
  }

  /** The facts about `a / f * 5` the confidence bounds rest on. */
  lemma ScaledArea(a: real, f: real)
    requires a >= 0.0 && f > 0.0
    ensures a / f * 5.0 >= 0.0
    ensures a / f * 5.0 * f == 5.0 * a
    ensures 1.0 < a / f * 5.0 <==> f < 5.0 * a
    ensures a / f * 5.0 == 1.0 <==> f == 5.0 * a
  {
    var q := a / f;
    assert q * f == a;
    assert q >= 0.0;
    if 1.0 < q * 5.0 {
      assert f < q * 5.0 * f;
    }
    if f < 5.0 * a {
      assert f < q * 5.0 * f;
    }
    if q * 5.0 == 1.0 {
      assert f == q * 5.0 * f;
    }
  }

  /** A face covering a fifth of the frame is reported with full confidence. */
  lemma ConfidenceAtFifth(a: Pos)
    ensures Confidence(a, 5 * a) == 1.0
  {
  }

  /** A face covering a tenth of the frame is reported with confidence one half. */
  lemma ConfidenceAtTenth(a: Pos)
    ensures Confidence(a, 10 * a) == 0.5
  {
    var c := Confidence(a, 10 * a);
    var r := a as real;
    assert c * (10 * a) as real == 5.0 * r;
    assert (10 * a) as real == 10.0 * r;
    assert (c * 10.0 - 5.0) * r == 0.0;
    CancelPositive(c * 10.0 - 5.0, r);
  }

  lemma CancelPositive(x: real, y: real)
    requires y > 0.0 && x * y == 0.0
    ensures x == 0.0
  {
  }

  /** The pixel count of a frame. */
  function Area(frame: Frame): Pos {
    PositiveProduct(frame.height, frame.width);
    frame.height * frame.width
  }

  lemma PositiveProduct(m: Pos, n: Pos)
    ensures m * n > 0
  {
  }

  /**
   * The report for an uploaded image: `None` is an image the decoder
   * rejects. Only the first face is classified; the count still covers all
   * of them.
   */
  function DetectFace(image: Option<Frame>): (r: FaceReport)
    ensures r.faceDetected <==> image.Some? && |image.value.faces| > 0
    ensures !r.faceDetected ==> r == NoFace
    ensures r.faceDetected ==>
              var face := image.value.faces[0];
              && r.expression == ApiClassifier.Detect(face.features).text
              && r.colour == ToRgb(Colour(ApiClassifier.Classify(face.features)))
              && r.faceCount == |image.value.faces|
              && r.dimensions == Some(face.box)
              && r.confidence == Confidence(BoxArea(face.box), Area(image.value))
    ensures 0.0 <= r.confidence <= 1.0
  {
    match image
    case None => NoFace
    case Some(frame) =>
      if |frame.faces| == 0 then NoFace
      else
        var face := frame.faces[0];
        var reading := ApiClassifier.Detect(face.features);
        var frameArea := Area(frame);
        FaceReport(
          true,
          reading.text,
          Confidence(BoxArea(face.box), frameArea),
          ToRgb(reading.colour),
          |frame.faces|,
          Some(face.box))
  }

  /** One entry of the `/expressions` list. */
  datatype Listed = Listed(name: string, description: string, colour: Rgb)

  /** The `/expressions` list, in its order. */
  const Catalogue: seq<Listed> := [
    Listed("Happy \U{1F604}", "Strong smile detected", Rgb(0, 255, 0)),
    Listed("Content \U{1F60A}", "Gentle smile with visible eyes", Rgb(100, 255, 50)),
    Listed("Sad \U{1F622}", "Low facial contrast, downturned mouth", Rgb(255, 100, 100)),
    Listed("Serious \U{1F610}", "Dark expression, no smile", Rgb(100, 100, 255)),
    Listed("Thinking \U{1F914}", "Furrowed brow detected", Rgb(50, 150, 255)),
    Listed("Surprised \U{1F62E}", "Eyes wide or no eyes detected", Rgb(0, 200, 255)),
    Listed("Sleepy \U{1F634}", "Eyes barely open", Rgb(255, 150, 150)),
    Listed("Neutral \U{1F60A}", "Default calm expression", Rgb(200, 200, 200))
  ]

  /** Where each label sits in the list. */
  function Position(l: Label): (i: nat)
    ensures i < |Catalogue|
  {
    match l
    case Happy => 0
    case Content => 1
    case Sad => 2
    case Serious => 3
    case Thinking => 4
    case Surprised => 5
    case Sleepy => 6
    case Neutral => 7
  }

  /**
   * The list names every label by its display text and gives the RGB
   * reversal of the classifier's BGR colour for it, so the front end draws
   * a reported expression in its listed colour.
   */
  lemma CatalogueMatchesClassifier(l: Label)
    ensures Catalogue[Position(l)].name == Display(l)
    ensures Catalogue[Position(l)].colour == ToRgb(Colour(l))
  {
  }

  /** The list holds each label once and nothing else. */
  lemma CatalogueIsComplete(i: nat)
    requires i < |Catalogue|
    ensures exists l :: Position(l) == i
  {
    var l := [Happy, Content, Sad, Serious, Thinking, Surprised, Sleepy, Neutral][i];
    assert Position(l) == i;
  }

  /** Every report, detected or not, carries an expression and a colour that the list pairs together. */
  lemma {:induction false} ReportIsListed(image: Option<Frame>)
    ensures exists i :: 0 <= i < |Catalogue| &&
              Catalogue[i].name == DetectFace(image).expression && Catalogue[i].colour == DetectFace(image).colour
  {
    var r := DetectFace(image);
    if r.faceDetected {
      var l := ApiClassifier.Classify(image.value.faces[0].features);
      CatalogueMatchesClassifier(l);
      assert Catalogue[Position(l)].name == r.expression;
    } else {
      assert Catalogue[7].name == r.expression;
    }
  }
}
