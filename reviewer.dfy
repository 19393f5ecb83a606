/**
 * agents/reviewer_agent.py: the reviewer asks the chat model to grade a draft
 * and decodes the verdict. Any exception on the way (the call, the JSON, a
 * conversion, validation) turns into a fixed rejection, so `review` never
 * raises and never accepts by accident.
 */
module Reviewer {
  import opened Wrappers
  import opened Text
  import opened Json
  import opened Schema
  import opened Codec

  /** Python's `float(s)` on a string: the number it denotes, or None where it raises ValueError. */
  type ParseFloat = string -> Option<real>

  const ErrorCritiquePrefix := "System error during review: "
  const ErrorFeedback := "System error, please retry aggregation."
  const NoCritique := "No critique provided."

  /** The conservative verdict returned for any exception with message `msg`. */
  function Failure(msg: string): ReviewerOutput
  {
    ReviewerOutput(0.0, REJECT, Some(ErrorCritiquePrefix + msg), Some(ErrorFeedback))
  }

  /** `float(v)` for a decoded JSON value (`bool` converts to 0.0 or 1.0). */
  function FloatOf(v: Json, parseFloat: ParseFloat): Result<real, string>
  {
    match v
    case JInt(i) => Ok(i as real)
    case JFloat(f) => Ok(f)
    case JBool(b) => Ok(if b then 1.0 else 0.0)
    case JStr(s) =>
      (match parseFloat(s)
       case Some(x) => Ok(x)
       case None => Err("could not convert string to float: '" + s + "'"))
    case _ => Err("float() argument must be a string or a real number, not '" + TypeName(v) + "'")
  }

  /** `AgentDecision(v)`: only the two value strings name a member. */
  function DecisionOf(v: Json): Result<AgentDecision, string>
  {
    if v.JStr? && ParseDecision(v.s).Some? then Ok(ParseDecision(v.s).value)
    else if v.JStr? then Err("'" + v.s + "' is not a valid AgentDecision")
    else Err("the " + TypeName(v) + " value is not a valid AgentDecision")
  }

  /** Validation of an `Optional[str]` field: null is None, a string is kept, anything else is refused. */
  function OptionalString(v: Json, field: string): Result<Option<string>, string>
  {
    if v.JNull? then Ok(None)
    else if v.JStr? then Ok(Some(v.s))
    else Err(ValidationMessage("ReviewerOutput", field))
  }

  /** The four keyword arguments of the `ReviewerOutput(...)` call, evaluated left to right. */
  function FromObject(data: map<string, Json>, parseFloat: ParseFloat): Result<ReviewerOutput, string>
  {
    var score := FloatOf(GetOr(data, "confidence_score", JFloat(0.0)), parseFloat);
    if score.Err? then Err(score.error)
    else
      var decision := DecisionOf(GetOr(data, "decision", JStr("REJECT")));
      if decision.Err? then Err(decision.error)
      else
        var critique := OptionalString(GetOr(data, "critique", JStr(NoCritique)), "critique");
        var feedback := OptionalString(GetOr(data, "feedback_for_retriever", JNull), "feedback_for_retriever");
        if critique.Err? then Err(critique.error)
        else if feedback.Err? then Err(feedback.error)
        else Ok(ReviewerOutput(score.value, decision.value, critique.value, feedback.value))
  }

  /** The decoding half of `review`, once the model has answered with `reply`. */
  function VerdictFromReply(reply: ModelReply, loads: Loads, parseFloat: ParseFloat): ReviewerOutput
  {
    if reply.CallFailed? then Failure(reply.message)
    else
      var r := loads(CleanJsonOutput(reply.content));
      if r.Err? then Failure(r.error)
      else if !r.value.JObj? then Failure(NoGetMessage(r.value))
      else
        var f := FromObject(r.value.fields, parseFloat);
        if f.Ok? then f.value else Failure(f.error)
  }

  /**
   * `ReviewerAgent.review`. The model is shown the question, the draft
   * answer and the citations; the reasoning trace is not part of the prompt.
   */
  function Review(query: string, draft: ReasonerOutput, llm: (string, string, seq<string>) -> ModelReply,
                  loads: Loads, parseFloat: ParseFloat): ReviewerOutput
  {
    VerdictFromReply(llm(query, draft.draftAnswer, draft.citations), loads, parseFloat)
  }

  /** Once the reply decodes to an object, the verdict is the object's conversion or the rejection for its error. */
  lemma VerdictOfObject(content: string, loads: Loads, parseFloat: ParseFloat, data: map<string, Json>)
    requires loads(CleanJsonOutput(content)) == Ok(JObj(data))
    ensures VerdictFromReply(Reply(content), loads, parseFloat)
            == (if FromObject(data, parseFloat).Ok? then FromObject(data, parseFloat).value else Failure(FromObject(data, parseFloat).error))
  {
  }

  lemma DecisionLiterals()
    ensures DecisionOf(JStr("ACCEPT")) == Ok(ACCEPT) && DecisionOf(JStr("REJECT")) == Ok(REJECT)
  {
    DecisionRoundTrip(ACCEPT, "ACCEPT");
    DecisionRoundTrip(REJECT, "REJECT");
  }

  /** The object the model's reply decodes to, when there is one. */
  function DecodedObject(reply: ModelReply, loads: Loads): Option<map<string, Json>>
  {
    if reply.CallFailed? then None
    else
      var r := loads(CleanJsonOutput(reply.content));
      if r.Ok? && r.value.JObj? then Some(r.value.fields) else None
  }

  /** The conditions under which the object's fields all convert and validate. */
  predicate WellTyped(data: map<string, Json>, parseFloat: ParseFloat)
  {
    FloatOf(GetOr(data, "confidence_score", JFloat(0.0)), parseFloat).Ok?
    && OptionalString(GetOr(data, "critique", JStr(NoCritique)), "critique").Ok?
    && OptionalString(GetOr(data, "feedback_for_retriever", JNull), "feedback_for_retriever").Ok?
  }

  /**
   * A draft is accepted exactly when the reply decodes to an object whose
   * "decision" is the string "ACCEPT" and whose other fields convert; the
   * score plays no part in the decision.
   */
  lemma AcceptIff(reply: ModelReply, loads: Loads, parseFloat: ParseFloat)
    ensures VerdictFromReply(reply, loads, parseFloat).decision == ACCEPT
            <==> (DecodedObject(reply, loads).Some?
                  && Get(DecodedObject(reply, loads).value, "decision") == Some(JStr("ACCEPT"))
                  && WellTyped(DecodedObject(reply, loads).value, parseFloat))
  {
    var d := DecodedObject(reply, loads);
    if d.Some? {
      VerdictOfDecoded(reply, loads, parseFloat);
      ObjectAccepts(d.value, parseFloat);
    } else {
      RejectsOnFailure(reply, loads, parseFloat);
    }
  }

  lemma VerdictOfDecoded(reply: ModelReply, loads: Loads, parseFloat: ParseFloat)
    requires DecodedObject(reply, loads).Some?
    ensures var f := FromObject(DecodedObject(reply, loads).value, parseFloat);
            VerdictFromReply(reply, loads, parseFloat) == (if f.Ok? then f.value else Failure(f.error))
  {
  }

  /** An object converts to an ACCEPT exactly when its decision is "ACCEPT" and its other fields convert. */
  lemma ObjectAccepts(data: map<string, Json>, parseFloat: ParseFloat)
    ensures (FromObject(data, parseFloat).Ok? && FromObject(data, parseFloat).value.decision == ACCEPT)
            <==> (Get(data, "decision") == Some(JStr("ACCEPT")) && WellTyped(data, parseFloat))
  {
    var dv := GetOr(data, "decision", JStr("REJECT"));
    DecisionLiterals();
    if dv != JStr("ACCEPT") && DecisionOf(dv).Ok? {
      DecisionRoundTrip(ACCEPT, dv.s);
      assert DecisionOf(dv).value == REJECT;
    }
  }

  /** A failed call, undecodable JSON or a non-object: the fixed rejection carrying the exception's message. */
  lemma RejectsOnFailure(reply: ModelReply, loads: Loads, parseFloat: ParseFloat)
    requires DecodedObject(reply, loads).None?
    ensures var out := VerdictFromReply(reply, loads, parseFloat);
            out.decision == REJECT && out.confidenceScore == 0.0
            && out.feedbackForRetriever == Some(ErrorFeedback)
            && out.critique.Some? && StartsWith(out.critique.value, ErrorCritiquePrefix)
  {
    var out := VerdictFromReply(reply, loads, parseFloat);
    assert exists msg :: out == Failure(msg);
    var msg :| out == Failure(msg);
    assert out.critique.value[..|ErrorCritiquePrefix|] == ErrorCritiquePrefix;
  }

  /** A model call that raised is reported verbatim in the critique. */
  lemma RejectsOnCallFailure(msg: string, loads: Loads, parseFloat: ParseFloat)
    ensures VerdictFromReply(CallFailed(msg), loads, parseFloat)
            == ReviewerOutput(0.0, REJECT, Some("System error during review: " + msg), Some("System error, please retry aggregation."))
  {
  }

  /** Every key missing: score 0.0, rejection, the default critique and no feedback. */
  lemma ReviewDefaults(content: string, loads: Loads, parseFloat: ParseFloat)
    requires loads(CleanJsonOutput(content)) == Ok(JObj(map[]))
    ensures VerdictFromReply(Reply(content), loads, parseFloat) == ReviewerOutput(0.0, REJECT, Some("No critique provided."), None)
  {
    VerdictOfObject(content, loads, parseFloat, map[]);
    EmptyObjectVerdict(parseFloat);
  }

  lemma EmptyObjectVerdict(parseFloat: ParseFloat)
    ensures FromObject(map[], parseFloat) == Ok(ReviewerOutput(0.0, REJECT, Some(NoCritique), None))
  {
    var data: map<string, Json> := map[];
    DecisionLiterals();
    assert GetOr(data, "confidence_score", JFloat(0.0)) == JFloat(0.0);
    assert GetOr(data, "decision", JStr("REJECT")) == JStr("REJECT");
  }

  /** An explicit ACCEPT is honoured at any score, even 0.0, and an explicit null critique stays None. */
  lemma AcceptsAtAnyScore(content: string, loads: Loads, parseFloat: ParseFloat, score: real)
    requires loads(CleanJsonOutput(content))
             == Ok(JObj(map["confidence_score" := JFloat(score), "decision" := JStr("ACCEPT"), "critique" := JNull]))
    ensures VerdictFromReply(Reply(content), loads, parseFloat) == ReviewerOutput(score, ACCEPT, None, None)
  {
    VerdictOfObject(content, loads, parseFloat, map["confidence_score" := JFloat(score), "decision" := JStr("ACCEPT"), "critique" := JNull]);
    ExplicitAcceptObject(score, parseFloat);
  }

  lemma ExplicitAcceptObject(score: real, parseFloat: ParseFloat)
    ensures FromObject(map["confidence_score" := JFloat(score), "decision" := JStr("ACCEPT"), "critique" := JNull], parseFloat)
            == Ok(ReviewerOutput(score, ACCEPT, None, None))
  {
    var data := map["confidence_score" := JFloat(score), "decision" := JStr("ACCEPT"), "critique" := JNull];
    assert "feedback_for_retriever" !in data by {
      assert "feedback_for_retriever" != "confidence_score";
      assert "feedback_for_retriever" != "decision";
      assert "feedback_for_retriever" != "critique";
    }
    assert GetOr(data, "confidence_score", JFloat(0.0)) == JFloat(score);
    assert GetOr(data, "decision", JStr("REJECT")) == JStr("ACCEPT");
    assert GetOr(data, "critique", JStr(NoCritique)) == JNull;
    DecisionLiterals();
  }

  /**
   * Any decoded object whose "decision" is a string other than the two values
   * makes the whole review fall back to the rejection, whatever its other
   * fields; when its score converts, the message is the decision's own error.
   */
  lemma UnknownDecisionRejects(reply: ModelReply, loads: Loads, parseFloat: ParseFloat, s: string)
    requires s != "ACCEPT" && s != "REJECT"
    requires DecodedObject(reply, loads).Some? && Get(DecodedObject(reply, loads).value, "decision") == Some(JStr(s))
    ensures var out := VerdictFromReply(reply, loads, parseFloat);
            out.decision == REJECT && out.confidenceScore == 0.0
            && out.feedbackForRetriever == Some(ErrorFeedback)
            && out.critique.Some? && StartsWith(out.critique.value, ErrorCritiquePrefix)
    ensures FloatOf(GetOr(DecodedObject(reply, loads).value, "confidence_score", JFloat(0.0)), parseFloat).Ok? ==>
              VerdictFromReply(reply, loads, parseFloat) == Failure("'" + s + "' is not a valid AgentDecision")
  {
    var data := DecodedObject(reply, loads).value;
    VerdictOfDecoded(reply, loads, parseFloat);
    UnknownDecisionObject(data, s, parseFloat);
    var out := VerdictFromReply(reply, loads, parseFloat);
    assert out == Failure(FromObject(data, parseFloat).error);
    assert out.critique.value[..|ErrorCritiquePrefix|] == ErrorCritiquePrefix;
  }

  /** An unknown decision string fails the conversion: on the score if that fails first, otherwise on the decision. */
  lemma UnknownDecisionObject(data: map<string, Json>, s: string, parseFloat: ParseFloat)
    requires s != "ACCEPT" && s != "REJECT" && Get(data, "decision") == Some(JStr(s))
    ensures FromObject(data, parseFloat).Err?
    ensures FloatOf(GetOr(data, "confidence_score", JFloat(0.0)), parseFloat).Ok? ==>
              FromObject(data, parseFloat) == Err("'" + s + "' is not a valid AgentDecision")
  {
    assert GetOr(data, "decision", JStr("REJECT")) == JStr(s);
    assert ParseDecision(s).None?;
  }

  /** Two drafts with the same answer and citations get the same review, whatever their traces. */
  lemma ReviewIgnoresTrace(query: string, d1: ReasonerOutput, d2: ReasonerOutput,
                           llm: (string, string, seq<string>) -> ModelReply, loads: Loads, parseFloat: ParseFloat)
    requires d1.draftAnswer == d2.draftAnswer && d1.citations == d2.citations
    ensures Review(query, d1, llm, loads, parseFloat) == Review(query, d2, llm, loads, parseFloat)
  {
  }
}
