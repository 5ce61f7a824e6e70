/**
 * The earlier classifier of the standalone webcam demo (`detect_expression`
 * in backend/face_detection_test.py): fewer detector passes, other
 * thresholds, another rule order, and a ninth answer, "Looking Away". Its
 * display texts are stored double-encoded (UTF-8 read as Windows-1252), and
 * they are modelled exactly as stored. Only the name before the space is
 * constrained by a lemma; the double-encoded marks after it are fixed by
 * the body of `Mark` alone.
 */
module LegacyClassifier {
  import opened Wrappers
  import opened Text
  import opened Expression

  /**
   * The measurements the demo takes. The detector settings differ from the
   * service's, so a count here is not the same measurement as the
   * same-named count there.
   */
  datatype LegacyFeatures = LegacyFeatures(
    eyes: nat,           // eye detector, minNeighbors 20, minSize 15x15
    eyesLoose: nat,      // eye detector, minNeighbors 10, minSize 10x10
    smileStrong: nat,    // smile detector, scaleFactor 1.8, minNeighbors 20, minSize 25x25
    smileWeak: nat,      // smile detector, scaleFactor 1.5, minNeighbors 15, minSize 20x20
    brightness: real,
    upper: real,
    lower: real,
    lowerContrast: real)

  /** The demo's answers: one of the eight labels, or Looking Away. */
  datatype LegacyLabel = Labelled(value: Label) | LookingAway

  /** The demo's decision list, in its order; the answer is the one whose region holds the measurements. */
  function Classify(f: LegacyFeatures): (a: LegacyLabel)
    ensures InRegion(a, f)
  {
    if f.smileStrong > 0 then Labelled(Happy)
    else if f.smileWeak > 0 && f.eyes >= 2 then Labelled(Content)
    else if f.eyes < 2 && f.eyesLoose >= 1 then Labelled(Sleepy)
    else if f.eyes == 0 then
      if f.brightness > 100.0 then Labelled(Surprised) else LookingAway
    else if f.eyes >= 2 then
      if f.upper < f.lower - 10.0 then Labelled(Thinking)
      else if f.lowerContrast < 30.0 && f.brightness < 90.0 then Labelled(Sad)
      else if f.brightness < 80.0 then Labelled(Serious)
      else Labelled(Neutral)
    else Labelled(Neutral)
  }

  /** The two-eye tests that precede Neutral, in the demo's thresholds. */
  predicate Furrowed(f: LegacyFeatures) {
    f.upper < f.lower - 10.0
  }

  predicate Flat(f: LegacyFeatures) {
    f.lowerContrast < 30.0 && f.brightness < 90.0
  }

  /**
   * The measurements each answer is given for, stated without the rule
   * order: the nine sets are disjoint and together cover every input.
   */
  predicate InRegion(a: LegacyLabel, f: LegacyFeatures) {
    match a
    case LookingAway => f.smileStrong == 0 && f.eyes == 0 && f.eyesLoose == 0 && f.brightness <= 100.0
    case Labelled(Happy) => f.smileStrong > 0
    case Labelled(Content) => f.smileStrong == 0 && f.smileWeak > 0 && f.eyes >= 2
    case Labelled(Sleepy) => f.smileStrong == 0 && f.eyes < 2 && f.eyesLoose >= 1
    case Labelled(Surprised) => f.smileStrong == 0 && f.eyes == 0 && f.eyesLoose == 0 && f.brightness > 100.0
    case Labelled(Thinking) => f.smileStrong == 0 && f.smileWeak == 0 && f.eyes >= 2 && Furrowed(f)
    case Labelled(Sad) => f.smileStrong == 0 && f.smileWeak == 0 && f.eyes >= 2 && !Furrowed(f) && Flat(f)
    case Labelled(Serious) =>
      f.smileStrong == 0 && f.smileWeak == 0 && f.eyes >= 2 && !Furrowed(f) && !Flat(f) && f.brightness < 80.0
    case Labelled(Neutral) =>
      f.smileStrong == 0 &&
      ((f.eyes == 1 && f.eyesLoose == 0) ||
       (f.smileWeak == 0 && f.eyes >= 2 && !Furrowed(f) && !Flat(f) && f.brightness >= 80.0))
  }

  /** The demo's decision list gives exactly the answer whose region holds the measurements. */
  lemma ClassifyByRegion(f: LegacyFeatures, a: LegacyLabel)
    ensures Classify(f) == a <==> InRegion(a, f)
  {
  }

  /** What follows the space in each stored display text: the emoji, double-encoded. */
  function Mark(a: LegacyLabel): string {
    match a
    case LookingAway => "\U{EF}\U{BF}\U{BD}"
    case Labelled(Happy) => "\U{F0}\U{178}\U{2DC}\U{201E}"
    case Labelled(Content) => "\U{F0}\U{178}\U{2DC}\U{160}"
    case Labelled(Sleepy) => "\U{F0}\U{178}\U{2DC}\U{B4}"
    case Labelled(Surprised) => "\U{F0}\U{178}\U{2DC}\U{AE}"
    case Labelled(Thinking) => "\U{F0}\U{178}\U{A4}\U{201D}"
    case Labelled(Sad) => "\U{EF}\U{BF}\U{BD}"
    case Labelled(Serious) => "\U{F0}\U{178}\U{2DC}"
    case Labelled(Neutral) => "\U{F0}\U{178}\U{2DC}\U{160}"
  }

  /** The display text stored for each answer, byte-for-byte as the file holds it: the name, a space, the mark. */
  function Caption(a: LegacyLabel): string {
    match a
    case LookingAway => "Looking Away " + Mark(a)
    case Labelled(l) => Name(l) + " " + Mark(a)
  }

  /** A word followed by a space and anything: `split()[0]` gives the word. */
  lemma {:induction false} WordThenSpace(w: string, rest: string)
    requires w != [] && NoSpace(w)
    ensures FirstWord(w + " " + rest) == Some(w)
  {
    var lead: string, tail := [], " " + rest;
    assert lead + w + tail == w + " " + rest;
    assert IsSpace(tail[0]);
    FirstWordOf(lead, w, tail);
  }

  /**
   * A reading shows an answer when its text starts with the answer's name
   * ("Looking" for Looking Away) and its colour is the answer's, Looking Away
   * sharing the grey of Neutral.
   */
  predicate Shows(r: Reading, a: LegacyLabel) {
    && (a.Labelled? ==> FirstWord(r.text) == Some(Name(a.value)) && r.colour == Colour(a.value))
    && (a.LookingAway? ==> FirstWord(r.text) == Some("Looking") && r.colour == Colour(Neutral))
  }

  /** The stored text and colour of each answer show it. */
  lemma {:induction false} CaptionFirstWord(a: LegacyLabel)
    ensures Shows(Reading(Caption(a), LegacyColour(a)), a)
  {
    match a
    case LookingAway =>
      var m := Mark(a);
      LettersHaveNoSpace("Looking");
      WordThenSpace("Looking", "Away " + m);
      assert "Looking" + " " + ("Away " + m) == "Looking Away " + m;
    case Labelled(l) =>
      NameIsWord(l);
      WordThenSpace(Name(l), Mark(a));
  }

  /** Looking Away is drawn in the grey of Neutral; every other answer in its label's colour. */
  function LegacyColour(a: LegacyLabel): Bgr {
    match a
    case LookingAway => Bgr(200, 200, 200)
    case Labelled(l) => Colour(l)
  }

  /** The text and colour `detect_expression` returns: they show the answer the decision list gives. */
  function Detect(f: LegacyFeatures): (r: Reading)
    ensures Shows(r, Classify(f))
  {
    var a := Classify(f);
    CaptionFirstWord(a);
    Reading(Caption(a), LegacyColour(a))
  }

  /** A strong smile decides Happy before any other rule is looked at. */
  lemma StrongSmileDominates(f: LegacyFeatures)
    requires f.smileStrong > 0
    ensures Classify(f) == Labelled(Happy)
  {
  }

  /** Content needs a weak smile and two strict eyes; with one strict eye a weak smile is never Content. */
  lemma ContentNeedsTwoEyes(f: LegacyFeatures)
    ensures Classify(f) == Labelled(Content) <==> f.smileStrong == 0 && f.smileWeak > 0 && f.eyes >= 2
  {
  }

  /** Without any eye, brightness above 100 gives Surprised and anything else Looking Away. */
  lemma NoEyes(f: LegacyFeatures)
    requires f.smileStrong == 0 && f.eyes == 0 && f.eyesLoose == 0
    ensures f.brightness > 100.0 ==> Classify(f) == Labelled(Surprised)
    ensures f.brightness <= 100.0 ==> Classify(f) == LookingAway
  {
  }

  /** Looking Away is given exactly when no eye is found, no strong smile is seen and the face is not bright. */
  lemma LookingAwayRegion(f: LegacyFeatures)
    ensures Classify(f) == LookingAway <==>
              f.smileStrong == 0 && f.eyes == 0 && f.eyesLoose == 0 && f.brightness <= 100.0
  {
  }

  /**
   * With two strict eyes and no smile the rules run Thinking, Sad, Serious,
   * Neutral: Sad is tested before Serious, so a dark face with a flat lower
   * third is Sad, not Serious.
   */
  lemma TwoEyeOrder(f: LegacyFeatures)
    requires f.smileStrong == 0 && f.smileWeak == 0 && f.eyes >= 2
    ensures f.upper < f.lower - 10.0 ==> Classify(f) == Labelled(Thinking)
    ensures f.upper >= f.lower - 10.0 && f.lowerContrast < 30.0 && f.brightness < 90.0 ==>
              Classify(f) == Labelled(Sad)
    ensures f.upper >= f.lower - 10.0 && !(f.lowerContrast < 30.0 && f.brightness < 90.0) && f.brightness < 80.0 ==>
              Classify(f) == Labelled(Serious)
    ensures f.upper >= f.lower - 10.0 && !(f.lowerContrast < 30.0 && f.brightness < 90.0) && f.brightness >= 80.0 ==>
              Classify(f) == Labelled(Neutral)
  {
  }

  /** One strict eye, no loose eye and no strong smile reach the final else: Neutral, whatever the weak-smile count. */
  lemma FallbackIsLive(f: LegacyFeatures)
    requires f.smileStrong == 0 && f.eyes == 1 && f.eyesLoose == 0
    ensures Classify(f) == Labelled(Neutral)
  {
  }

  /** The demo never answers Happy from a weak smile alone, and never Content with one eye, unlike the service. */
  lemma WeakSmileWithOneEye(f: LegacyFeatures)
    requires f.smileStrong == 0 && f.smileWeak > 0 && f.eyes == 1
    ensures Classify(f) == (if f.eyesLoose >= 1 then Labelled(Sleepy) else Labelled(Neutral))
  {
  }
}
