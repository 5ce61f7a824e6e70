/**
 * The `/process-audio` and `/reset` endpoints of the service
 * (backend/api.py): one spoken turn appended to the shared conversation log,
 * and the log cleared. Speech recognition, the language model, speech
 * synthesis and the parsing of the confidence field are outside the model;
 * their outcomes arrive as fields of the request.
 */
module AudioEndpoint {
  import opened Wrappers
  import opened Text
  import opened Conversation
  import Context

  /** One call of `/process-audio` with the outcomes of the outside services. */
  datatype AudioRequest = AudioRequest(
    expression: string,            // the `expression` form field
    recognition: Recognition,
    reply: Reply,
    speechSaved: bool,             // whether gTTS produced and saved the audio file
    confidence: Option<real>)      // the confidence echoed back; `None` for any value the answer cannot carry
                                   // (`float` raises, or gives nan or an infinity that JSON cannot encode)

  /** The endpoint's answer. */
  datatype AudioResponse =
    | Spoken(transcript: string, response: string, audioUrl: string, expression: string, confidence: real)
    | NotUnderstood(transcript: string, response: string, error: string)
    | ServerError                  // HTTP 500

  /** The log after a call, and the answer given. */
  datatype Served = Served(log: Log, response: AudioResponse)

  /** "Sorry, I could not understand you. Please try again." */
  const Apology: string := "क्षमा करें, मैं आपकी बात समझ नहीं पाया। कृपया फिर से प्रयास करें।"

  /** "Sorry, I did not get any response." */
  const NoResponse: string := "क्षमा करें, मुझे कोई प्रतिक्रिया नहीं मिली।"

  /** The name under which the spoken answer is stored when the log holds `n` entries. */
  function AudioFileName(n: nat): string {
    "response_" + Decimal(n) + ".mp3"
  }

  /** Logs of different lengths store their answers under different names. */
  lemma AudioFileNameInjective(m: nat, n: nat)
    requires AudioFileName(m) == AudioFileName(n)
    ensures m == n
  {
    var pre := |"response_"|;
    assert Decimal(m) == AudioFileName(m)[pre..|AudioFileName(m)| - 4];
    assert Decimal(n) == AudioFileName(n)[pre..|AudioFileName(n)| - 4];
    DecimalInjective(m, n);
  }

  /** The answer text: the model's reply unless it is missing or empty. */
  function AnswerText(reply: Reply): (text: string)
    requires !reply.LlmFailed?
    ensures text != []
    ensures reply.Replied? && reply.text != [] ==> text == reply.text
    ensures text != NoResponse ==> reply.Replied? && reply.text == text
  {
    if reply.Replied? && reply.text != [] then reply.text else NoResponse
  }

  /**
   * The part of a `/process-audio` call after the transcript and its note
   * exist: the user entry is appended before the model is asked, so it
   * stays even when a later step raises.
   */
  function Exchange(log: Log, transcript: string, note: string, req: AudioRequest): (s: Served)
    ensures ExtendsByTurn(log, s.log)
    ensures |s.log| > |log| && s.log[|log|] == Entry(User, transcript + note)
    ensures |s.log| == |log| + 1 <==> req.reply.LlmFailed?
    ensures |s.log| == |log| + 2 ==> s.log[|log| + 1].content != []
    ensures !req.reply.LlmFailed? ==>
              s.log == log + [Entry(User, transcript + note), Entry(Assistant, AnswerText(req.reply))]
    ensures s.response.Spoken? <==> !req.reply.LlmFailed? && req.speechSaved && req.confidence.Some?
    ensures !s.response.Spoken? ==> s.response == ServerError
    ensures s.response.Spoken? ==>
              && s.log == log + [Entry(User, transcript + note), Entry(Assistant, s.response.response)]
              && s.response.transcript == transcript
              && s.response.response != []
              && s.response.audioUrl == "/audio/" + AudioFileName(|s.log|)
              && s.response.expression == req.expression
              && Some(s.response.confidence) == req.confidence
  {
    var asked := log + [Entry(User, transcript + note)];
    if req.reply.LlmFailed? then Served(asked, ServerError)
    else
      var text := AnswerText(req.reply);
      var answered := asked + [Entry(Assistant, text)];
      if !req.speechSaved then Served(answered, ServerError)
      else
        match req.confidence
        case None => Served(answered, ServerError)
        case Some(c) =>
          Served(answered, Spoken(transcript, text, "/audio/" + AudioFileName(|answered|), req.expression, c))
  }

  /** One `/process-audio` call against the log. */
  function ProcessAudio(log: Log, req: AudioRequest): (s: Served)
    ensures ExtendsByTurn(log, s.log)
    ensures !req.recognition.Heard? ==> s.log == log
    ensures s.response.NotUnderstood? <==> req.recognition.Unintelligible?
    ensures s.response.NotUnderstood? ==> s.response == NotUnderstood([], Apology, "UnknownValueError")
    ensures req.recognition.Heard? && Context.ForExpression(req.expression).Failure? ==> s == Served(log, ServerError)
    ensures req.recognition.Heard? && Context.ForExpression(req.expression).Success? ==>
              s == Exchange(log, req.recognition.transcript, Context.ForExpression(req.expression).value, req)
    ensures |s.log| > |log| ==>
              && req.recognition.Heard?
              && Context.ForExpression(req.expression).Success?
              && s.log[|log|] == Entry(User, req.recognition.transcript + Context.ForExpression(req.expression).value)
    ensures |s.log| == |log| + 1 ==> req.reply.LlmFailed?
    ensures |s.log| == |log| + 2 ==> s.log[|log| + 1].role == Assistant && s.log[|log| + 1].content != []
    ensures s.response.Spoken? ==>
              && |s.log| == |log| + 2
              && s.response.transcript == req.recognition.transcript
              && s.response.response == s.log[|log| + 1].content
              && s.response.audioUrl == "/audio/" + AudioFileName(|s.log|)
              && s.response.expression == req.expression
              && Some(s.response.confidence) == req.confidence
  {
    match req.recognition
    case Unintelligible => Served(log, NotUnderstood([], Apology, "UnknownValueError"))
    case RecognitionFailed => Served(log, ServerError)
    case Heard(transcript) =>
      match Context.ForExpression(req.expression)
      case Failure(_) => Served(log, ServerError)
      case Success(note) => Exchange(log, transcript, note, req)
  }

  /** A request to the service that touches the log. */
  datatype Request = Audio(req: AudioRequest) | Reset

  /** The log after one request: `/reset` replaces it by the empty list, `/process-audio` adds at most one turn. */
  function Apply(log: Log, r: Request): (after: Log)
    ensures r.Reset? ==> after == []
    ensures r.Audio? ==> ExtendsByTurn(log, after)
    ensures r.Audio? && !r.req.recognition.Heard? ==> after == log
  {
    match r
    case Audio(req) => ProcessAudio(log, req).log
    case Reset => []
  }

  /** The log after a series of requests, handled one at a time. */
  function Serve(log: Log, rs: seq<Request>): Log
    decreases |rs|
  {
    if rs == [] then log else Serve(Apply(log, rs[0]), rs[1..])
  }

  /** Serving two series in a row is serving their concatenation. */
  lemma {:induction false} ServeConcat(log: Log, rs: seq<Request>, more: seq<Request>)
    ensures Serve(log, rs + more) == Serve(Serve(log, rs), more)
    decreases |rs|
  {
    if rs != [] {
      assert (rs + more)[1..] == rs[1..] + more;
      ServeConcat(Apply(log, rs[0]), rs[1..], more);
    } else {
      assert rs + more == more;
    }
  }

  /** After a reset the log depends only on what came after it: the earlier history is gone. */
  lemma {:induction false} ResetForgets(log: Log, before: seq<Request>, after: seq<Request>)
    ensures Serve(log, before + [Reset] + after) == Serve([], after)
  {
    ServeConcat(log, before + [Reset], after);
    ServeConcat(log, before, [Reset]);
  }

  /** Every assistant entry answers the user entry before it, whatever series of requests is served. */
  lemma {:induction false} ServeKeepsPaired(log: Log, rs: seq<Request>)
    requires Paired(log)
    ensures Paired(Serve(log, rs))
    decreases |rs|
  {
    if rs != [] {
      if rs[0].Audio? {
        ExtendsByTurnKeepsPaired(log, Apply(log, rs[0]));
      }
      ServeKeepsPaired(Apply(log, rs[0]), rs[1..]);
    }
  }

  /** While the language model never raises, the log strictly alternates user and assistant. */
  lemma {:induction false} ServeKeepsAlternating(log: Log, rs: seq<Request>)
    requires Alternating(log)
    requires forall i | 0 <= i < |rs| :: rs[i].Audio? ==> !rs[i].req.reply.LlmFailed?
    ensures Alternating(Serve(log, rs))
    decreases |rs|
  {
    if rs != [] {
      if rs[0].Audio? {
        ExtendsByTurnKeepsAlternating(log, Apply(log, rs[0]));
      }
      ServeKeepsAlternating(Apply(log, rs[0]), rs[1..]);
    }
  }
}
