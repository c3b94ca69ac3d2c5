/**
 * The field extractors nested in the three prompt adapters
 * (`squad_Passage`, `NQ_Passage`, `musique_Context` and the three
 * `*_Question`). A prompt reads "... Passage: <passage> Question: <question>"
 * (MuSiQue says "Context:" instead of "Passage:"); the extractors cut the
 * fields out by the markers.
 */
module PromptFields {
  import opened Outcomes
  import opened PyText

  const PassageMarker: string := "Passage:"
  const ContextMarker: string := "Context:"
  const QuestionMarker: string := "Question:"

  /** The marker that opens the leading field of a prompt. */
  predicate IsLeadMarker(lead: string) {
    lead == PassageMarker || lead == ContextMarker
  }

  /**
   * The text from the first `lead` up to the first "Question:" (empty when the
   * question marker comes first), with every `lead` deleted and outer
   * whitespace stripped. Python's `index` raises ValueError when either
   * marker is missing.
   */
  function LeadField(prompt: string, lead: string): (r: Result<string>)
    requires IsLeadMarker(lead)
    ensures r.Ok? <==> Contains(prompt, lead) && Contains(prompt, QuestionMarker)
    ensures r.Err? ==> r.error == ValueError
    ensures r.Ok? ==> Trimmed(r.value)
  {
    match Find(prompt, lead)
    case None => Err(ValueError)
    case Some(p) =>
      match Find(prompt, QuestionMarker)
      case None => Err(ValueError)
      case Some(q) => Ok(Strip(RemoveAll(if p <= q then prompt[p..q] else "", lead)))
  }

  /** `squad_Passage` and `NQ_Passage`. */
  function Passage(prompt: string): (r: Result<string>)
    ensures r.Ok? <==> Contains(prompt, PassageMarker) && Contains(prompt, QuestionMarker)
    ensures r.Err? ==> r.error == ValueError
  {
    LeadField(prompt, PassageMarker)
  }

  /** `musique_Context`. */
  function Context(prompt: string): (r: Result<string>)
    ensures r.Ok? <==> Contains(prompt, ContextMarker) && Contains(prompt, QuestionMarker)
    ensures r.Err? ==> r.error == ValueError
  {
    LeadField(prompt, ContextMarker)
  }

  /**
   * `*_Question`: everything from the first "Question:" on, with every
   * "Question:" deleted and outer whitespace stripped; ValueError when the
   * marker is missing.
   */
  function Question(prompt: string): (r: Result<string>)
    ensures r.Ok? <==> Contains(prompt, QuestionMarker)
    ensures r.Err? ==> r.error == ValueError
    ensures r.Ok? ==> Trimmed(r.value)
  {
    match Find(prompt, QuestionMarker)
    case None => Err(ValueError)
    case Some(q) => Ok(Strip(RemoveAll(prompt[q..], QuestionMarker)))
  }

  /** Each marker ends in ':' and has no other ':'. */
  lemma MarkersLastCharUnique()
    ensures LastCharUnique(PassageMarker)
    ensures LastCharUnique(ContextMarker)
    ensures LastCharUnique(QuestionMarker)
  {
  }

  /**
   * Round trip: in a prompt assembled as head + lead + body + "Question:" +
   * tail, where the lead marker does not occur in the head and "Question:"
   * does not occur before the tail, the field is the body with every lead
   * marker deleted, stripped.
   */
  lemma {:induction false} LeadFieldRoundTrip(head: string, lead: string, body: string, tail: string)
    requires IsLeadMarker(lead)
    requires !Contains(head, lead)
    requires !Contains(head + lead + body, QuestionMarker)
    ensures LeadField(head + lead + body + QuestionMarker + tail, lead) == Ok(Strip(RemoveAll(body, lead)))
  {
    MarkersFound(head, lead, body, tail);
    MiddleSlice(head, lead, body, QuestionMarker, tail);
    RemoveAllLeading(lead, body);
  }

  /**
   * A body made of marker-free pieces joined by the lead marker gives back
   * the pieces run together, stripped: every interior lead marker is deleted.
   */
  lemma LeadFieldPieces(head: string, lead: string, pieces: seq<string>, tail: string)
    requires IsLeadMarker(lead)
    requires !Contains(head, lead)
    requires forall i :: 0 <= i < |pieces| ==> !Contains(pieces[i], lead)
    requires !Contains(head + lead + Joined(pieces, lead), QuestionMarker)
    ensures LeadField(head + lead + Joined(pieces, lead) + QuestionMarker + tail, lead) == Ok(Strip(Concatenated(pieces)))
  {
    LeadFieldRoundTrip(head, lead, Joined(pieces, lead), tail);
    MarkersLastCharUnique();
    RemoveAllJoined(pieces, lead);
  }

  /** Where the two markers are first found in an assembled prompt. */
  lemma MarkersFound(head: string, lead: string, body: string, tail: string)
    requires IsLeadMarker(lead)
    requires !Contains(head, lead)
    requires !Contains(head + lead + body, QuestionMarker)
    ensures Find(head + lead + body + QuestionMarker + tail, lead) == Some(|head|)
    ensures Find(head + lead + body + QuestionMarker + tail, QuestionMarker) == Some(|head + lead + body|)
  {
    MarkersLastCharUnique();
    assert head + lead + body + QuestionMarker + tail == head + lead + (body + QuestionMarker + tail);
    FindAfter(head, lead, body + QuestionMarker + tail);
    FindAfter(head + lead + body, QuestionMarker, tail);
  }

  lemma MiddleSlice(head: string, lead: string, body: string, marker: string, tail: string)
    ensures (head + lead + body + marker + tail)[|head|..|head + lead + body|] == lead + body
  {
    var s := head + lead + body + marker + tail;
    forall i | 0 <= i < |lead| + |body| ensures s[|head| + i] == (lead + body)[i] {
    }
  }

  /**
   * When "Question:" comes before the first lead marker, the slice between
   * them is empty and so is the field.
   */
  lemma LeadFieldQuestionFirst(head: string, mid: string, lead: string, tail: string)
    requires IsLeadMarker(lead)
    requires !Contains(head, QuestionMarker)
    requires !Contains(head + QuestionMarker + mid, lead)
    ensures LeadField(head + QuestionMarker + mid + lead + tail, lead) == Ok("")
  {
    MarkersLastCharUnique();
    assert head + QuestionMarker + mid + lead + tail == head + QuestionMarker + (mid + lead + tail);
    FindAfter(head, QuestionMarker, mid + lead + tail);
    FindAfter(head + QuestionMarker + mid, lead, tail);
    StripTrimmed("");
  }

  /**
   * Round trip: in a prompt head + "Question:" + body, with no question
   * marker in head, the question is the body with every "Question:"
   * deleted, stripped.
   */
  lemma {:induction false} QuestionRoundTrip(head: string, body: string)
    requires !Contains(head, QuestionMarker)
    ensures Question(head + QuestionMarker + body) == Ok(Strip(RemoveAll(body, QuestionMarker)))
  {
    var s := head + QuestionMarker + body;
    MarkersLastCharUnique();
    FindAfter(head, QuestionMarker, body);
    assert s[|head|..] == QuestionMarker + body;
    RemoveAllLeading(QuestionMarker, body);
  }

  /** A question made of marker-free pieces joined by "Question:" gives back the pieces run together, stripped. */
  lemma QuestionPieces(head: string, pieces: seq<string>)
    requires !Contains(head, QuestionMarker)
    requires forall i :: 0 <= i < |pieces| ==> !Contains(pieces[i], QuestionMarker)
    ensures Question(head + QuestionMarker + Joined(pieces, QuestionMarker)) == Ok(Strip(Concatenated(pieces)))
  {
    QuestionRoundTrip(head, Joined(pieces, QuestionMarker));
    MarkersLastCharUnique();
    RemoveAllJoined(pieces, QuestionMarker);
  }
}
