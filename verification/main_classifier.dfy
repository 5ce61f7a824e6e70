/**
 * The copy of the expression classifier in the interactive assistant
 * (`detect_expression_from_face` in backend/main.py). Its rules are those
 * of the service, but the text of the second Sad rule carries a replacement
 * character instead of the crying-face emoji.
 */
module MainClassifier {
  import opened Wrappers
  import opened Text
  import opened Expression
  import ApiClassifier

  /** "Sad" followed by U+FFFD, the text returned by the second Sad rule. */
  const GarbledSad: Reading := Reading("Sad \U{FFFD}", Colour(Sad))

  /**
   * The decision list as the interactive assistant writes it, returning text
   * and colour directly: the colour is that of the label the service decides,
   * and the text is that label's or the garbled Sad.
   */
  function Detect(f: Features): (r: Reading)
    ensures r.colour == Colour(ApiClassifier.Classify(f))
    ensures r == Shown(ApiClassifier.Classify(f)) || r == GarbledSad
  {
    if f.smileHigh > 0 then Shown(Happy)
    else if f.smileMedium > 0 then Shown(Happy)
    else if f.smileLow > 0 && f.eyes >= 1 then Shown(Content)
    else if f.eyes < 2 && f.eyesLoose >= 1 then Shown(Sleepy)
    else if f.eyes == 0 then Shown(Surprised)
    else if f.eyes >= 2 then
      if f.upper < f.lower - 15.0 then Shown(Thinking)
      else if f.brightness < 75.0 || f.upper < f.middle - 12.0 then Shown(Serious)
      else if f.lowerContrast < 35.0 && 80.0 <= f.brightness <= 100.0 then Shown(Sad)
      else if f.brightness < 85.0 && !(f.smileLow > 0) then GarbledSad
      else Shown(Neutral)
    else Shown(Neutral)
  }

  /** The faces for which the second Sad rule is the one that fires. */
  predicate SubtleSad(f: Features) {
    && ApiClassifier.EntersEyeBranch(f)
    && ApiClassifier.NotFurrowed(f)
    && ApiClassifier.NotDark(f)
    && !(f.lowerContrast < 35.0 && 80.0 <= f.brightness <= 100.0)
    && f.brightness < 85.0
  }

  /** The first word of "Sad \U{FFFD}" is still "Sad", since U+FFFD is not whitespace. */
  lemma {:induction false} GarbledSadFirstWord()
    ensures FirstWord(GarbledSad.text) == Some("Sad")
  {
    var rest := " " + ['\U{FFFD}'];
    assert IsSpace(rest[0]);
    FirstWordOf([], "Sad", rest);
    assert [] + "Sad" + rest == GarbledSad.text;
  }

  /** The interactive copy answers as the service does, except where the second Sad rule fires. */
  lemma DetectAsService(f: Features)
    ensures Detect(f) == (if SubtleSad(f) then GarbledSad else ApiClassifier.Detect(f))
  {
    if ApiClassifier.EntersEyeBranch(f) {
      assert Detect(f) == if SubtleSad(f) then GarbledSad else Shown(ApiClassifier.Classify(f));
    } else {
      assert Detect(f) == Shown(ApiClassifier.Classify(f));
    }
  }

  /**
   * The two copies of the classifier agree: same colour and same first word
   * for every face, and the very same text except where the second Sad rule
   * fires.
   */
  lemma {:induction false} AgreesWithService(f: Features)
    ensures Detect(f).colour == ApiClassifier.Detect(f).colour
    ensures FirstWord(Detect(f).text) == FirstWord(ApiClassifier.Detect(f).text)
    ensures Detect(f).text == ApiClassifier.Detect(f).text <==> !SubtleSad(f)
  {
    DetectAsService(f);
    if SubtleSad(f) {
      assert ApiClassifier.Classify(f) == Sad;
      GarbledSadFirstWord();
      assert GarbledSad.text[4] != Display(Sad)[4];
    }
  }

  /** Every answer is the shown form of some label, or the garbled Sad. */
  lemma ReadingsAreLabels(f: Features)
    ensures Detect(f) == Shown(ApiClassifier.Classify(f)) || Detect(f) == GarbledSad
  {
  }

  /** One strict eye, no loose eye and no smile fall through every rule to the final Neutral. */
  lemma FallbackIsLive(f: Features)
    requires ApiClassifier.Unsmiling(f) && f.eyes == 1 && f.eyesLoose == 0
    ensures Detect(f) == Shown(Neutral)
  {
  }

  /** An input on which the two copies give different texts. */
  lemma GarbledSadOccurs()
    ensures Detect(Features(2, 2, 0, 0, 0, 82.0, 82.0, 82.0, 82.0, 50.0)).text == "Sad \U{FFFD}"
  {
  }
}
