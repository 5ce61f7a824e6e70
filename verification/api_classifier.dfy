/**
 * The expression classifier of the web service (`detect_expression_from_face`
 * in backend/api.py): an ordered list of threshold rules over the feature
 * bundle of one face, the first rule that fires deciding the label.
 */
module ApiClassifier {
  import opened Wrappers
  import opened Text
  import opened Expression

  /** The decision list, rule by rule in the order the service tests them; the label decided is the one whose region holds the bundle. */
  function Classify(f: Features): (l: Label)
    ensures InRegion(l, f)
  {
    if f.smileHigh > 0 then Happy
    else if f.smileMedium > 0 then Happy
    else if f.smileLow > 0 && f.eyes >= 1 then Content
    else if f.eyes < 2 && f.eyesLoose >= 1 then Sleepy
    else if f.eyes == 0 then Surprised
    else if f.eyes >= 2 then
      if f.upper < f.lower - 15.0 then Thinking
      else if f.brightness < 75.0 || f.upper < f.middle - 12.0 then Serious
      else if f.lowerContrast < 35.0 && 80.0 <= f.brightness <= 100.0 then Sad
      else if f.brightness < 85.0 && !(f.smileLow > 0) then Sad
      else Neutral
    else Neutral
  }

  /** The text and colour `detect_expression_from_face` returns for a face. */
  function Detect(f: Features): (r: Reading)
    ensures FirstWord(r.text) == Some(Name(Classify(f)))
    ensures r.colour == Colour(Classify(f))
  {
    FirstWordOfDisplay(Classify(f));
    Shown(Classify(f))
  }

  /** No smile at any sensitivity. */
  predicate Unsmiling(f: Features) {
    f.smileHigh == 0 && f.smileMedium == 0 && f.smileLow == 0
  }

  /** The rule set entered with two or more strict eyes: every earlier rule has failed and the `num_eyes >= 2` test holds. */
  predicate EntersEyeBranch(f: Features) {
    && !(f.smileHigh > 0)
    && !(f.smileMedium > 0)
    && !(f.smileLow > 0 && f.eyes >= 1)
    && !(f.eyes < 2 && f.eyesLoose >= 1)
    && !(f.eyes == 0)
    && f.eyes >= 2
  }

  /** Every rule, the `num_eyes >= 2` test included, has failed: the last `return` of the function is reached. */
  predicate ReachesFallback(f: Features) {
    && !(f.smileHigh > 0)
    && !(f.smileMedium > 0)
    && !(f.smileLow > 0 && f.eyes >= 1)
    && !(f.eyes < 2 && f.eyesLoose >= 1)
    && !(f.eyes == 0)
    && !(f.eyes >= 2)
  }

  /** Inside the two-eye rules the upper face is not markedly darker than the lower face. */
  predicate NotFurrowed(f: Features) {
    f.upper >= f.lower - 15.0
  }

  /** Inside the two-eye rules the face is neither dark overall nor dark above the middle band. */
  predicate NotDark(f: Features) {
    f.brightness >= 75.0 && f.upper >= f.middle - 12.0
  }

  /** The two Sad tests, the second with its weak-smile conjunct already known to hold. */
  predicate SadCue(f: Features) {
    (f.lowerContrast < 35.0 && 80.0 <= f.brightness <= 100.0) || f.brightness < 85.0
  }

  /**
   * The set of feature bundles each label is given for, stated without the
   * rule order: the eight sets are disjoint and together cover every bundle.
   */
  predicate InRegion(l: Label, f: Features) {
    match l
    case Happy => f.smileHigh > 0 || f.smileMedium > 0
    case Content => f.smileHigh == 0 && f.smileMedium == 0 && f.smileLow > 0 && f.eyes >= 1
    case Sleepy => f.smileHigh == 0 && f.smileMedium == 0 && f.eyes < 2 && f.eyesLoose >= 1 && (f.smileLow == 0 || f.eyes == 0)
    case Surprised => f.smileHigh == 0 && f.smileMedium == 0 && f.eyes == 0 && f.eyesLoose == 0
    case Thinking => Unsmiling(f) && f.eyes >= 2 && !NotFurrowed(f)
    case Serious => Unsmiling(f) && f.eyes >= 2 && NotFurrowed(f) && !NotDark(f)
    case Sad => Unsmiling(f) && f.eyes >= 2 && NotFurrowed(f) && NotDark(f) && SadCue(f)
    case Neutral =>
      Unsmiling(f) &&
      ((f.eyes == 1 && f.eyesLoose == 0) || (f.eyes >= 2 && NotFurrowed(f) && NotDark(f) && !SadCue(f)))
  }

  /** The decision list gives exactly the label whose region holds the bundle. */
  lemma ClassifyByRegion(f: Features, l: Label)
    ensures Classify(f) == l <==> InRegion(l, f)
  {
  }

  /** Any high-sensitivity smile makes the face Happy whatever else is measured, and so does a medium one when there is no high one. */
  lemma SmileDominates(f: Features)
    ensures f.smileHigh > 0 ==> Classify(f) == Happy
    ensures f.smileHigh == 0 && f.smileMedium > 0 ==> Classify(f) == Happy
  {
  }

  /** Without a strong smile and without strict eyes, a loosely detected eye means Sleepy (tested first), none at all means Surprised. */
  lemma NoStrictEyes(f: Features)
    requires f.smileHigh == 0 && f.smileMedium == 0 && f.eyes == 0
    ensures f.eyesLoose == 0 ==> Classify(f) == Surprised
    ensures f.eyesLoose >= 1 ==> Classify(f) == Sleepy
  {
  }

  /** A furrowed brow wins over darkness: Thinking is tested before Serious. */
  lemma ThinkingBeforeSerious(f: Features)
    requires Unsmiling(f) && f.eyes >= 2
    requires f.upper < f.lower - 15.0
    ensures Classify(f) == Thinking
  {
  }

  /** Within the two-eye rules no weak smile is left, so the second Sad rule amounts to `brightness < 85`. */
  lemma EyeBranchHasNoWeakSmile(f: Features)
    requires EntersEyeBranch(f)
    ensures f.smileLow == 0
    ensures NotFurrowed(f) && NotDark(f) && !(f.lowerContrast < 35.0 && 80.0 <= f.brightness <= 100.0) ==>
              (Classify(f) == Sad <==> f.brightness < 85.0)
  {
  }

  /** The last `return` is live: it is reached exactly by unsmiling faces with one strict eye and no loose one, and it answers Neutral. */
  lemma FallbackIsLive(f: Features)
    ensures ReachesFallback(f) <==> Unsmiling(f) && f.eyes == 1 && f.eyesLoose == 0
    ensures ReachesFallback(f) ==> Classify(f) == Neutral
  {
  }

  /** A feature bundle that the decision list labels `l`. */
  function Witness(l: Label): Features {
    match l
    case Happy => Features(0, 0, 1, 0, 0, 128.0, 128.0, 128.0, 128.0, 50.0)
    case Content => Features(1, 0, 0, 0, 1, 128.0, 128.0, 128.0, 128.0, 50.0)
    case Sleepy => Features(1, 1, 0, 0, 0, 128.0, 128.0, 128.0, 128.0, 50.0)
    case Surprised => Features(0, 0, 0, 0, 0, 128.0, 128.0, 128.0, 128.0, 50.0)
    case Thinking => Features(2, 2, 0, 0, 0, 128.0, 100.0, 140.0, 128.0, 50.0)
    case Serious => Features(2, 2, 0, 0, 0, 60.0, 60.0, 60.0, 60.0, 50.0)
    case Sad => Features(2, 2, 0, 0, 0, 90.0, 90.0, 90.0, 90.0, 20.0)
    case Neutral => Features(2, 2, 0, 0, 0, 128.0, 128.0, 128.0, 128.0, 50.0)
  }

  /** No rule is dead: each of the eight labels is the answer for some face. */
  lemma EveryLabelReachable(l: Label)
    ensures exists f :: Classify(f) == l
  {
    assert Classify(Witness(l)) == l;
  }
}
