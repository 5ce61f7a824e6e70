/**
 * The expression context of the service (`get_expression_context` in
 * backend/api.py): the first word of an expression text is looked up in a
 * fixed table of Hindi phrases, and a hit is wrapped as a bracketed note
 * that is appended to the user's transcript.
 */
module Context {
  import opened Wrappers
  import opened Text
  import opened Expression

  /** The one exception the lookup can raise: `split()[0]` on a text with no word. */
  datatype Raised = IndexError

  /** The table from an expression's first word to the Hindi phrase describing the user. */
  const Phrases: map<string, string> := map[
    "Happy" := "उपयोगकर्ता खुश दिख रहे हैं",
    "Content" := "उपयोगकर्ता संतुष्ट दिख रहे हैं",
    "Sad" := "उपयोगकर्ता उदास दिख रहे हैं",
    "Surprised" := "उपयोगकर्ता हैरान दिख रहे हैं",
    "Thinking" := "उपयोगकर्ता सोच रहे हैं",
    "Sleepy" := "उपयोगकर्ता थके हुए दिख रहे हैं",
    "Serious" := "उपयोगकर्ता गंभीर दिख रहे हैं",
    "Neutral" := "उपयोगकर्ता शांत दिख रहे हैं"
  ]

  /** The note appended to a transcript: a newline, then the phrase in "[संदर्भ: …]" ("context: …"). */
  function Wrap(phrase: string): string {
    "\n[संदर्भ: " + phrase + "]"
  }

  /** Every phrase of the table is non-empty, so a hit is never mistaken for a miss. */
  lemma PhrasesNonEmpty(word: string)
    requires word in Phrases
    ensures Phrases[word] != []
  {
  }

  /** `expression_map.get(word, "")` */
  function PhraseFor(word: string): (p: string)
    ensures p != [] <==> word in Phrases
  {
    if word in Phrases then PhrasesNonEmpty(word); Phrases[word] else ""
  }

  /** The note for an expression text, or the IndexError raised for a non-empty text that is all whitespace. */
  function ForExpression(expression: string): (r: Result<string, Raised>)
    ensures expression == [] ==> r == Success([])
    ensures r.Failure? <==> expression != [] && AllSpace(expression)
    ensures FirstWord(expression).Some? && FirstWord(expression).value in Phrases ==>
              r == Success(Wrap(Phrases[FirstWord(expression).value]))
    ensures FirstWord(expression).Some? && FirstWord(expression).value !in Phrases ==> r == Success([])
  {
    if expression == [] then Success([])
    else
      match FirstWord(expression)
      case None => Failure(IndexError)
      case Some(word) =>
        var phrase := PhraseFor(word);
        Success(if phrase != [] then Wrap(phrase) else [])
  }

  /** Every label's name is a key of the table. */
  lemma EveryLabelHasPhrase(l: Label)
    ensures Name(l) in Phrases && Phrases[Name(l)] != []
  {
  }

  /** The keys of the table are exactly the eight label names. */
  lemma PhraseKeysAreNames(word: string)
    ensures word in Phrases <==> exists l :: Name(l) == word
  {
    if word in Phrases {
      var l :| l in [Happy, Content, Sad, Surprised, Thinking, Sleepy, Serious, Neutral] && Name(l) == word;
    }
  }

  /** The note for a label's display text wraps that label's phrase. */
  lemma {:induction false} ContextOfLabel(l: Label)
    ensures ForExpression(Display(l)) == Success(Wrap(Phrases[Name(l)]))
  {
    FirstWordOfDisplay(l);
  }

  /** The two characters after the common "उपयोगकर्ता " that tell the phrases apart. */
  function Signature(l: Label): (char, char) {
    match l
    case Happy => ('\U{916}', '\U{941}')
    case Content => ('\U{938}', '\U{902}')
    case Sleepy => ('\U{925}', '\U{915}')
    case Surprised => ('\U{939}', '\U{948}')
    case Thinking => ('\U{938}', '\U{94B}')
    case Serious => ('\U{917}', '\U{902}')
    case Sad => ('\U{909}', '\U{926}')
    case Neutral => ('\U{936}', '\U{93E}')
  }

  lemma PhraseSignature(l: Label)
    ensures |Phrases[Name(l)]| > 12
    ensures (Phrases[Name(l)][11], Phrases[Name(l)][12]) == Signature(l)
  {
  }

  /** Different labels get different notes, so the note tells the model which expression was seen. */
  lemma {:induction false} ContextDeterminesLabel(l1: Label, l2: Label)
    requires ForExpression(Display(l1)) == ForExpression(Display(l2))
    ensures l1 == l2
  {
    ContextOfLabel(l1);
    ContextOfLabel(l2);
    WrapInjective(Phrases[Name(l1)], Phrases[Name(l2)]);
    PhraseSignature(l1);
    PhraseSignature(l2);
  }

  /** A text whose first word is no label name, e.g. "Unknown 🙂", gets no note. */
  lemma {:induction false} UnknownWordHasNoContext(lead: string, w: string, rest: string)
    requires AllSpace(lead)
    requires w != [] && NoSpace(w) && w !in Phrases
    requires rest == [] || IsSpace(rest[0])
    ensures ForExpression(lead + w + rest) == Success([])
  {
    FirstWordOf(lead, w, rest);
  }

  /** Different phrases give different notes, so a note determines its phrase. */
  lemma WrapInjective(p: string, q: string)
    requires Wrap(p) == Wrap(q)
    ensures p == q
  {
    var n := |Wrap("")| - 1;
    assert p == Wrap(p)[n..|Wrap(p)| - 1];
    assert q == Wrap(q)[n..|Wrap(q)| - 1];
  }
}
