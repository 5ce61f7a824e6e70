/**
 * The interactive assistant (backend/main.py): a monitoring loop keeps a
 * shared cell with the latest expression seen on the camera, and the speech
 * loop adds that expression's note to each transcript before asking the
 * language model. The two loops are modelled as one series of events, each
 * handled whole, as the lock around the cell makes them.
 */
module Assistant {
  import opened Wrappers
  import opened Text
  import opened Expression
  import opened Conversation
  import MainClassifier
  import Context

  /** The shared `current_expression` cell. */
  datatype Cell = Cell(expression: string, detected: bool)

  /** The cell before the monitor has seen anything. */
  const Initial: Cell := Cell("Neutral", false)

  /**
   * One pass of the monitoring loop. `None` is a failed camera read, which
   * is skipped; otherwise the features of the faces found, in detector order,
   * of which only the first is classified.
   */
  function Observe(cell: Cell, frame: Option<seq<Features>>): (c: Cell)
    ensures frame.None? ==> c == cell
    ensures frame.Some? && frame.value != [] ==> c.detected && c.expression == MainClassifier.Detect(frame.value[0]).text
    ensures frame.Some? && frame.value == [] ==> !c.detected && c.expression == cell.expression
  {
    match frame
    case None => cell
    case Some(faces) =>
      if |faces| > 0 then Cell(MainClassifier.Detect(faces[0]).text, true)
      else cell.(detected := false)
  }

  /** The note the speech loop adds for the cell, or the IndexError of `split()[0]` on an all-whitespace expression. */
  function ContextOf(cell: Cell): (r: Result<string, Context.Raised>)
    ensures !cell.detected ==> r == Success([])
  {
    if !cell.detected then Success([])
    else
      var expr := cell.expression;
      var clean := if expr != [] then FirstWord(expr) else Some([]);
      match clean
      case None => Failure(Context.IndexError)
      case Some(word) =>
        var phrase := Context.PhraseFor(word);
        Success(if phrase != [] then Context.Wrap(phrase) else [])
  }

  /** Once a face is seen, the note is the service's note for the stored expression. */
  lemma ContextAsService(cell: Cell)
    requires cell.detected
    ensures ContextOf(cell) == Context.ForExpression(cell.expression)
  {
    var e := cell.expression;
    if e != [] {
      match FirstWord(e)
      case None =>
        assert ContextOf(cell) == Failure(Context.IndexError);
      case Some(w) =>
        var phrase := Context.PhraseFor(w);
        assert ContextOf(cell) == Success(if phrase != [] then Context.Wrap(phrase) else []);
    }
  }

  /** The texts the cell can hold: the initial "Neutral", or a text the interactive classifier returns. */
  predicate Sound(cell: Cell) {
    || cell.expression == Initial.expression
    || cell.expression == MainClassifier.GarbledSad.text
    || exists l :: cell.expression == Display(l)
  }

  /** The monitor only ever stores classifier texts, so the cell stays sound. */
  lemma {:induction false} ObserveKeepsSound(cell: Cell, frame: Option<seq<Features>>)
    requires Sound(cell)
    ensures Sound(Observe(cell, frame))
  {
    if frame.Some? && frame.value != [] {
      MainClassifier.ReadingsAreLabels(frame.value[0]);
    }
  }

  /** Every text a sound cell can hold starts with a label name. */
  lemma {:induction false} SoundFirstWord(cell: Cell)
    requires Sound(cell)
    ensures FirstWord(cell.expression).Some? && FirstWord(cell.expression).value in Context.Phrases
  {
    if cell.expression == Initial.expression {
      FirstWordOf([], "Neutral", []);
      assert [] + "Neutral" + [] == Initial.expression;
    } else if cell.expression == MainClassifier.GarbledSad.text {
      MainClassifier.GarbledSadFirstWord();
    } else {
      var l :| cell.expression == Display(l);
      FirstWordOfDisplay(l);
      Context.EveryLabelHasPhrase(l);
    }
  }

  /** In a sound cell the lookup never raises, and a seen face always yields a note. */
  lemma {:induction false} SoundContext(cell: Cell)
    requires Sound(cell)
    ensures ContextOf(cell).Success?
    ensures cell.detected ==> ContextOf(cell).value != []
  {
    SoundFirstWord(cell);
    if cell.detected {
      ContextAsService(cell);
    }
  }

  /** The speech loop's state: the log, the cell, and whether `main` is still looping. */
  datatype Session = Session(log: Log, cell: Cell, running: bool)

  /** What happens next: a monitor pass over one camera frame, or one spoken turn. */
  datatype Event = Frame(faces: Option<seq<Features>>) | Utterance(recognition: Recognition, reply: Reply)

  /**
   * One spoken turn. The user's entry is always added once the transcript and
   * its note exist; the answer only when the model replied with non-empty
   * text. Recognition errors end `main`; so does any exception, which escapes
   * the loop.
   */
  function Speak(log: Log, cell: Cell, recognition: Recognition, reply: Reply): (s: Session)
    ensures s.cell == cell
    ensures ExtendsByTurn(log, s.log)
    ensures s.running <==> recognition.Heard? && ContextOf(cell).Success? && !reply.LlmFailed?
    ensures |s.log| > |log| <==> recognition.Heard? && ContextOf(cell).Success?
    ensures |s.log| > |log| ==> s.log[|log|].content == recognition.transcript + ContextOf(cell).value
    ensures |s.log| == |log| + 2 <==> |s.log| > |log| && reply.Replied? && reply.text != []
    ensures |s.log| == |log| + 2 ==> s.log[|log| + 1].content == reply.text
  {
    match recognition
    case Unintelligible => Session(log, cell, false)
    case RecognitionFailed => Session(log, cell, false)
    case Heard(text) =>
      match ContextOf(cell)
      case Failure(_) => Session(log, cell, false)
      case Success(note) =>
        var asked := log + [Entry(User, text + note)];
        match reply
        case LlmFailed => Session(asked, cell, false)
        case NoReply => Session(asked, cell, true)
        case Replied(answer) =>
          if answer != [] then Session(asked + [Entry(Assistant, answer)], cell, true)
          else Session(asked, cell, true)
  }

  /** One event; once `main` has returned nothing changes any more. */
  function Step(s: Session, e: Event): Session {
    if !s.running then s
    else
      match e
      case Frame(faces) => s.(cell := Observe(s.cell, faces))
      case Utterance(recognition, reply) => Speak(s.log, s.cell, recognition, reply)
  }

  /** A series of events from a given state. */
  function Run(s: Session, es: seq<Event>): Session
    decreases |es|
  {
    if es == [] then s else Run(Step(s, es[0]), es[1..])
  }

  /** The state `main` starts from. */
  const Start: Session := Session([], Initial, true)

  /** Whatever the camera and the user do, the cell stays sound and every answer sits right behind its question. */
  lemma {:induction false} RunKeepsInvariant(s: Session, es: seq<Event>)
    requires Sound(s.cell) && Paired(s.log)
    ensures Sound(Run(s, es).cell) && Paired(Run(s, es).log)
    decreases |es|
  {
    if es != [] {
      var next := Step(s, es[0]);
      if s.running {
        match es[0]
        case Frame(faces) => ObserveKeepsSound(s.cell, faces);
        case Utterance(_, _) => ExtendsByTurnKeepsPaired(s.log, next.log);
      }
      RunKeepsInvariant(next, es[1..]);
    }
  }

  /**
   * The lookup's IndexError never ends a session that starts from the
   * initial cell: a heard utterance always adds its user entry, and `main`
   * stops only on a recognition error or a failing model.
   */
  lemma {:induction false} HeardIsLogged(es: seq<Event>, recognition: Recognition, reply: Reply)
    requires recognition.Heard?
    requires Run(Start, es).running
    ensures var s := Run(Start, es);
            var t := Step(s, Utterance(recognition, reply));
            && |t.log| > |s.log|
            && t.log[|s.log|].role == User
            && (t.running <==> !reply.LlmFailed?)
  {
    var s := Run(Start, es);
    AlternatingIsPaired([]);
    RunKeepsInvariant(Start, es);
    SoundContext(s.cell);
    var t := Speak(s.log, s.cell, recognition, reply);
    assert Step(s, Utterance(recognition, reply)) == t;
  }
}
