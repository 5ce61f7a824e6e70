/**
 * The conversation log both entry points keep: an ordered list of
 * `{"role", "content"}` messages that is only ever appended to or cleared.
 */
module Conversation {

  datatype Role = User | Assistant

  datatype Entry = Entry(role: Role, content: string)

  type Log = seq<Entry>

  /** What the speech recogniser made of the user's audio. */
  datatype Recognition =
    | Heard(transcript: string)    // recognised Hindi text
    | Unintelligible               // sr.UnknownValueError
    | RecognitionFailed            // sr.RequestError, or the audio could not be read

  /** What the language-model pipeline produced for the log. */
  datatype Reply =
    | Replied(text: string)        // the content of the last AI message
    | NoReply                      // no AI message came out of the stream
    | LlmFailed                    // the pipeline raised

  /** Every assistant entry answers the user entry directly before it. */
  predicate Paired(log: Log) {
    forall i | 0 <= i < |log| && log[i].role == Assistant :: i > 0 && log[i - 1].role == User
  }

  /** User and assistant strictly take turns, starting with the user and ending with an answer. */
  predicate Alternating(log: Log) {
    && |log| % 2 == 0
    && forall i | 0 <= i < |log| :: log[i].role == (if i % 2 == 0 then User else Assistant)
  }

  /** A strictly alternating log is in particular paired. */
  lemma AlternatingIsPaired(log: Log)
    requires Alternating(log)
    ensures Paired(log)
  {
    forall i | 0 <= i < |log| && log[i].role == Assistant
      ensures i > 0 && log[i - 1].role == User
    {
      assert i % 2 == 1;
      assert (i - 1) % 2 == 0;
    }
  }

  /**
   * `after` is `log` with at most one turn added: a user entry, optionally
   * followed by an assistant entry.
   */
  predicate ExtendsByTurn(log: Log, after: Log) {
    && log <= after
    && |after| <= |log| + 2
    && (|after| > |log| ==> after[|log|].role == User)
    && (|after| == |log| + 2 ==> after[|log| + 1].role == Assistant)
  }

  /** Adding a turn keeps every answer right behind its question. */
  lemma ExtendsByTurnKeepsPaired(log: Log, after: Log)
    requires Paired(log) && ExtendsByTurn(log, after)
    ensures Paired(after)
  {
    forall i | 0 <= i < |after| && after[i].role == Assistant
      ensures i > 0 && after[i - 1].role == User
    {
      if i < |log| {
        assert log[i] == after[i];
        assert log[i - 1] == after[i - 1];
      }
    }
  }

  /** Adding no turn or a complete one keeps the strict alternation. */
  lemma ExtendsByTurnKeepsAlternating(log: Log, after: Log)
    requires Alternating(log) && ExtendsByTurn(log, after)
    requires |after| != |log| + 1
    ensures Alternating(after)
  {
    forall i | 0 <= i < |after|
      ensures after[i].role == (if i % 2 == 0 then User else Assistant)
    {
      if i < |log| {
        assert log[i] == after[i];
      }
    }
  }

  /** The number of entries of a role. */
  function Count(log: Log, role: Role): (n: nat)
    ensures n <= |log|
  {
    if log == [] then 0
    else Count(log[..|log| - 1], role) + (if log[|log| - 1].role == role then 1 else 0)
  }

  /** Counting distributes over appending. */
  lemma {:induction false} CountAppend(log: Log, more: Log, role: Role)
    ensures Count(log + more, role) == Count(log, role) + Count(more, role)
  {
    if more != [] {
      assert (log + more)[..|log + more| - 1] == log + more[..|more| - 1];
      CountAppend(log, more[..|more| - 1], role);
    } else {
      assert log + more == log;
    }
  }

  /** In a paired log there are never more answers than questions. */
  lemma {:induction false} PairedCounts(log: Log)
    requires Paired(log)
    ensures Count(log, Assistant) <= Count(log, User)
  {
    if log != [] {
      var init := log[..|log| - 1];
      assert Paired(init);
      PairedCounts(init);
      if log[|log| - 1].role == Assistant {
        var before := init[..|init| - 1];
        assert init == before + [init[|init| - 1]];
        assert Paired(before);
        PairedCounts(before);
        CountAppend(before, [init[|init| - 1]], User);
        CountAppend(before, [init[|init| - 1]], Assistant);
        assert Count([init[|init| - 1]], User) == 1;
        assert Count([init[|init| - 1]], Assistant) == 0;
      }
    }
  }
}
