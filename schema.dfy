/**
 * The typed records of schema.py. A pydantic model becomes a datatype; a
 * field with a default gets the same default here. Floats are `real`.
 */
module Schema {
  import opened Wrappers
  import Json

  /** The reviewer's verdict; a `str` enum whose values are its names. */
  datatype AgentDecision = ACCEPT | REJECT {
    function Value(): string
    {
      match this
      case ACCEPT => "ACCEPT"
      case REJECT => "REJECT"
    }
  }

  /** `AgentDecision(s)`: the member whose value is `s`; None where Python raises ValueError. */
  function ParseDecision(s: string): Option<AgentDecision>
  {
    if s == "ACCEPT" then Some(ACCEPT) else if s == "REJECT" then Some(REJECT) else None
  }

  /** `ParseDecision` and `Value` are inverse: exactly the two values name a decision. */
  lemma DecisionRoundTrip(d: AgentDecision, s: string)
    ensures ParseDecision(d.Value()) == Some(d)
    ensures ParseDecision(s) == Some(d) <==> s == d.Value()
    ensures ParseDecision(s).None? <==> s != "ACCEPT" && s != "REJECT"
  {
  }

  /** The kind of an evidence item, as stored in its metadata under "type". */
  datatype ContentType = TEXT | IMAGE | TABLE {
    function Value(): string
    {
      match this
      case TEXT => "text"
      case IMAGE => "image"
      case TABLE => "table"
    }
  }

  function ParseContentType(s: string): Option<ContentType>
  {
    if s == "text" then Some(TEXT)
    else if s == "image" then Some(IMAGE)
    else if s == "table" then Some(TABLE)
    else None
  }

  lemma ContentTypeRoundTrip(t: ContentType, s: string)
    ensures ParseContentType(t.Value()) == Some(t)
    ensures ParseContentType(s) == Some(t) <==> s == t.Value()
    ensures ParseContentType(s).None? <==> s != "text" && s != "image" && s != "table"
  {
  }

  /** A paragraph of the PDF. The source draws `chunk_id` from uuid4; here the caller supplies it. */
  datatype TextChunk = TextChunk(chunkId: string, pageNumber: int, content: string)

  /** An extracted figure; `caption` is optional and absent by default. */
  datatype FigureData = FigureData(figureId: string, pageNumber: int, imagePath: string, caption: Option<string> := None)

  /** One unit of evidence in the vector store; metadata values are JSON scalars. */
  datatype EvidenceItem = EvidenceItem(id: string, content: string, score: Option<real> := None, metadata: map<string, Json.Json>)

  /** The planner's record. `search_queries` is required but has no length constraint. */
  datatype PlannerOutput = PlannerOutput(reasoning: string, searchQueries: seq<string>, needVisualUnderstanding: bool := false)

  /** The vision model's record. */
  datatype VLOutput = VLOutput(description: string, insights: string)

  /** The reasoner's record; all three fields are required. */
  datatype ReasonerOutput = ReasonerOutput(draftAnswer: string, citations: seq<string>, reasoningTrace: string)

  /** A caption as an f-string renders it: the text, or "None" when absent. */
  function CaptionText(caption: Option<string>): string
  {
    if caption.Some? then caption.value else "None"
  }

  /** The reviewer's record; the score has no range check, critique and feedback default to None. */
  datatype ReviewerOutput = ReviewerOutput(
    confidenceScore: real,
    decision: AgentDecision,
    critique: Option<string> := None,
    feedbackForRetriever: Option<string> := None)

  /** Python's truthiness of an optional string: neither None nor "". */
  predicate Truthy(s: Option<string>)
  {
    s.Some? && s.value != ""
  }

  /**
   * pydantic's lax validation of an `int` field: an integer, a float with no
   * fractional part, or a bool (as 0 or 1); None where validation fails.
   */
  function LaxInt(v: Json.Json): (r: Option<int>)
    ensures v.JInt? ==> r == Some(v.i)
    ensures v.JFloat? ==> (r.Some? <==> v.f == v.f.Floor as real) && (r.Some? ==> r.value as real == v.f)
    ensures !v.JInt? && !v.JFloat? && !v.JBool? ==> r.None?
  {
    if v.JInt? then Some(v.i)
    else if v.JFloat? then (if v.f == v.f.Floor as real then Some(v.f.Floor) else None)
    else if v.JBool? then Some(if v.b then 1 else 0)
    else None
  }
}
