/**
 * The vocabulary shared by every variant of the expression classifier: the
 * feature bundle measured on a face, the labels, their display texts and
 * their BGR display colours.
 */
module Expression {
  import opened Wrappers
  import opened Text

  /** An 8-bit colour channel. */
  newtype Byte = x: int | 0 <= x < 256

  /** A colour in OpenCV's channel order (blue, green, red). */
  datatype Bgr = Bgr(b: Byte, g: Byte, r: Byte)

  /** A colour in the order the web front end expects (red, green, blue). */
  datatype Rgb = Rgb(r: Byte, g: Byte, b: Byte)

  /** `[color_bgr[2], color_bgr[1], color_bgr[0]]`: the channel reversal done before a colour leaves the service. */
  function ToRgb(c: Bgr): Rgb {
    Rgb(c.r, c.g, c.b)
  }

  /** The eight expressions the production classifiers can report. */
  datatype Label = Happy | Content | Sleepy | Surprised | Thinking | Serious | Sad | Neutral

  /**
   * What the classifier of the service and of the interactive assistant
   * reads off one face region. The counts are the numbers of rectangles the
   * Haar-cascade detectors return at each sensitivity; the statistics are the
   * mean intensity of the whole region, of its upper half, lower half and the
   * band from 30% to 70% of its height, and the standard deviation of its
   * lowest third.
   */
  datatype Features = Features(
    eyes: nat,           // eye detector, minNeighbors 15, minSize 15x15
    eyesLoose: nat,      // eye detector, minNeighbors 8, minSize 10x10
    smileHigh: nat,      // smile detector, minNeighbors 12, minSize 20x20
    smileMedium: nat,    // smile detector, minNeighbors 8, minSize 15x15
    smileLow: nat,       // smile detector, minNeighbors 5, minSize 10x10
    brightness: real,
    upper: real,
    lower: real,
    middle: real,
    lowerContrast: real)

  /** The pair a classifier returns: the text shown for the expression and its display colour. */
  datatype Reading = Reading(text: string, colour: Bgr)

  /** The word naming a label; it is the key of the context table. */
  function Name(l: Label): string {
    match l
    case Happy => "Happy"
    case Content => "Content"
    case Sleepy => "Sleepy"
    case Surprised => "Surprised"
    case Thinking => "Thinking"
    case Serious => "Serious"
    case Sad => "Sad"
    case Neutral => "Neutral"
  }

  /** The emoji that follows the name in a label's display text. */
  function Emoji(l: Label): char {
    match l
    case Happy => '\U{1F604}'
    case Content => '\U{1F60A}'
    case Sleepy => '\U{1F634}'
    case Surprised => '\U{1F62E}'
    case Thinking => '\U{1F914}'
    case Serious => '\U{1F610}'
    case Sad => '\U{1F622}'
    case Neutral => '\U{1F60A}'
  }

  /** The display text, e.g. "Happy 😄": the name, one space, the emoji. */
  function Display(l: Label): string {
    Name(l) + " " + [Emoji(l)]
  }

  /** The display colour of each label, identical in all three classifier variants. */
  function Colour(l: Label): Bgr {
    match l
    case Happy => Bgr(0, 255, 0)
    case Content => Bgr(50, 255, 100)
    case Sleepy => Bgr(150, 150, 255)
    case Surprised => Bgr(255, 200, 0)
    case Thinking => Bgr(255, 150, 50)
    case Serious => Bgr(255, 100, 100)
    case Sad => Bgr(100, 100, 255)
    case Neutral => Bgr(200, 200, 200)
  }

  /** A label as a classifier returns it: its display text and its colour. */
  function Shown(l: Label): Reading {
    Reading(Display(l), Colour(l))
  }

  /** No two labels share a name, so a name identifies its label. */
  lemma NameInjective(l1: Label, l2: Label)
    requires Name(l1) == Name(l2)
    ensures l1 == l2
  {
  }

  /** No two labels share a display colour, so the colour alone tells the expressions apart. */
  lemma ColourInjective(l1: Label, l2: Label)
    requires Colour(l1) == Colour(l2)
    ensures l1 == l2
  {
  }

  predicate IsLetter(c: char) {
    'A' <= c <= 'Z' || 'a' <= c <= 'z'
  }

  lemma LettersHaveNoSpace(s: string)
    requires forall i | 0 <= i < |s| :: IsLetter(s[i])
    ensures NoSpace(s)
  {
  }

  /** The first word of a label's display text is its name: the emoji is dropped by `split()[0]`. */
  lemma NameIsWord(l: Label)
    ensures Name(l) != [] && NoSpace(Name(l))
  {
    var w := Name(l);
    assert forall i | 0 <= i < |w| :: IsLetter(w[i]) by {
      match l
      case Happy =>
      case Content =>
      case Sleepy =>
      case Surprised =>
      case Thinking =>
      case Serious =>
      case Sad =>
      case Neutral =>
    }
    LettersHaveNoSpace(w);
  }

  lemma {:induction false} FirstWordOfDisplay(l: Label)
    ensures FirstWord(Display(l)) == Some(Name(l))
  {
    var w, rest := Name(l), " " + [Emoji(l)];
    NameIsWord(l);
    assert IsSpace(rest[0]);
    FirstWordOf([], w, rest);
    assert [] + w + rest == Display(l);
  }


}
