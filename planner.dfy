/**
 * agents/planner_agent.py: the planner turns the user's question into search
 * queries. The chat model is the function `llm` (the prompt wording is not
 * modelled); `plan` never raises, every failure has a fixed fallback record.
 */
module Planner {
  import opened Wrappers
  import opened Text
  import opened Json
  import opened Schema
  import opened Codec

  const OpenAiPrefix := "openai/"

  /**
   * The model id handed to LiteLLM: a DeepSeek model (its name lowercased by `Lower`) not already
   * routed through the OpenAI-compatible adapter gets the "openai/" prefix.
   */
  function ModelIdForLitellm(raw: string): (id: string)
    ensures id == raw || id == OpenAiPrefix + raw
    ensures StartsWith(id, OpenAiPrefix) || id == raw
  {
    if !StartsWith(raw, OpenAiPrefix) && Contains(Lower(raw), "deepseek") then OpenAiPrefix + raw else raw
  }

  /** The prefix is added exactly when the id lacks it and names DeepSeek; rewriting twice is rewriting once. */
  lemma ModelIdRewrite(raw: string)
    ensures ModelIdForLitellm(raw) != raw <==> !StartsWith(raw, OpenAiPrefix) && Contains(Lower(raw), "deepseek")
    ensures ModelIdForLitellm(ModelIdForLitellm(raw)) == ModelIdForLitellm(raw)
  {
    var id := ModelIdForLitellm(raw);
    if id != raw {
      assert (OpenAiPrefix + raw)[..|OpenAiPrefix|] == OpenAiPrefix;
    }
  }

  /** A Kelvin sign lowercases to 'k', so "DEEPSEE" followed by one still names DeepSeek. */
  lemma KelvinSignNamesDeepSeek()
    ensures ModelIdForLitellm("DEEPSEE" + [KelvinSign]) == OpenAiPrefix + "DEEPSEE" + [KelvinSign]
  {
    var raw := "DEEPSEE" + [KelvinSign];
    assert Lower(raw) == "deepseek";
    ContainsAt(Lower(raw), "deepseek", 0);
    assert !StartsWith(raw, OpenAiPrefix) by {
      assert raw[0] != OpenAiPrefix[0];
    }
  }

  const JsonFailedReasoning := "JSON parsing failed, using original query."
  const SystemErrorPrefix := "System error: "

  /** The degraded plan: search for the question itself, no figures. */
  function Fallback(userQuery: string, reasoning: string): PlannerOutput
  {
    PlannerOutput(reasoning, [userQuery], false)
  }

  /**
   * `PlannerOutput(reasoning=data.get(...), ...)` on a decoded object: missing
   * keys take their defaults, present values must have the field's JSON type.
   */
  function FromObject(userQuery: string, data: map<string, Json>): Result<PlannerOutput, string>
  {
    var reasoning := GetOr(data, "reasoning", JStr("No reasoning provided."));
    var queries := GetOr(data, "search_queries", StrArray([userQuery]));
    var visual := GetOr(data, "need_visual_understanding", JBool(false));
    if !reasoning.JStr? then Err(ValidationMessage("PlannerOutput", "reasoning"))
    else match StringList(queries)
      case None => Err(ValidationMessage("PlannerOutput", "search_queries"))
      case Some(qs) =>
        if !visual.JBool? then Err(ValidationMessage("PlannerOutput", "need_visual_understanding"))
        else Ok(PlannerOutput(reasoning.s, qs, visual.b))
  }

  /** The object the model's reply decodes to, when the call succeeded and the cleaned text is a JSON object. */
  function DecodedObject(reply: ModelReply, loads: Loads): Option<map<string, Json>>
  {
    if reply.CallFailed? then None
    else
      var r := loads(CleanJsonOutput(reply.content));
      if r.Ok? && r.value.JObj? then Some(r.value.fields) else None
  }

  /** `PlannerAgent.plan` once the model has answered with `reply`. */
  function PlanFromReply(userQuery: string, reply: ModelReply, loads: Loads): PlannerOutput
  {
    if reply.CallFailed? then Fallback(userQuery, SystemErrorPrefix + reply.message)
    else
      var r := loads(CleanJsonOutput(reply.content));
      if r.Err? then Fallback(userQuery, JsonFailedReasoning)
      else if !r.value.JObj? then Fallback(userQuery, SystemErrorPrefix + NoGetMessage(r.value))
      else
        var f := FromObject(userQuery, r.value.fields);
        if f.Ok? then f.value else Fallback(userQuery, SystemErrorPrefix + f.error)
  }

  /** `PlannerAgent.plan`: one model call on the question, then decoding with fallbacks; it never raises. */
  function Plan(userQuery: string, llm: string -> ModelReply, loads: Loads): PlannerOutput
  {
    PlanFromReply(userQuery, llm(userQuery), loads)
  }

  /**
   * The planner searches for the question itself unless the model's JSON
   * object supplies a valid `search_queries` list, which is then used
   * verbatim; the visual flag is true only when the object says so.
   */
  lemma PlanQueriesOrigin(userQuery: string, reply: ModelReply, loads: Loads)
    ensures var p := PlanFromReply(userQuery, reply, loads);
            var d := DecodedObject(reply, loads);
            p.searchQueries == [userQuery]
            || (d.Some? && "search_queries" in d.value && StringList(d.value["search_queries"]) == Some(p.searchQueries))
    ensures var p := PlanFromReply(userQuery, reply, loads);
            var d := DecodedObject(reply, loads);
            p.needVisualUnderstanding ==> d.Some? && Get(d.value, "need_visual_understanding") == Some(JBool(true))
  {
    var p := PlanFromReply(userQuery, reply, loads);
    var d := DecodedObject(reply, loads);
    if d.Some? {
      var f := FromObject(userQuery, d.value);
      FromObjectOrigin(userQuery, d.value);
      if f.Ok? {
        assert p == f.value;
      } else {
        assert p == Fallback(userQuery, SystemErrorPrefix + f.error);
      }
    } else {
      assert p.searchQueries == [userQuery] && !p.needVisualUnderstanding;
    }
  }

  /** A validated object yields its own query list, or the question when the key is missing. */
  lemma FromObjectOrigin(userQuery: string, data: map<string, Json>)
    ensures var f := FromObject(userQuery, data);
            f.Ok? ==> (if "search_queries" in data then StringList(data["search_queries"]) == Some(f.value.searchQueries)
                       else f.value.searchQueries == [userQuery])
    ensures var f := FromObject(userQuery, data);
            f.Ok? ==> (f.value.needVisualUnderstanding <==> Get(data, "need_visual_understanding") == Some(JBool(true)))
  {
    if "search_queries" !in data {
      StringListOfStrArray([userQuery]);
    }
  }

  /** A failed model call yields "System error: " + its message and the question as the only query. */
  lemma PlanOnCallFailure(userQuery: string, llm: string -> ModelReply, loads: Loads, msg: string)
    requires llm(userQuery) == CallFailed(msg)
    ensures Plan(userQuery, llm, loads) == PlannerOutput(SystemErrorPrefix + msg, [userQuery], false)
  {
  }

  /** Undecodable JSON yields the fixed parse-failure plan. */
  lemma PlanOnJsonError(userQuery: string, llm: string -> ModelReply, loads: Loads)
    requires llm(userQuery).Reply? && loads(CleanJsonOutput(llm(userQuery).content)).Err?
    ensures Plan(userQuery, llm, loads) == PlannerOutput(JsonFailedReasoning, [userQuery], false)
  {
  }

  /** JSON that is not an object fails on `.get` and takes the system-error path. */
  lemma PlanOnNonObject(userQuery: string, llm: string -> ModelReply, loads: Loads, v: Json)
    requires llm(userQuery).Reply? && loads(CleanJsonOutput(llm(userQuery).content)) == Ok(v) && !v.JObj?
    ensures Plan(userQuery, llm, loads) == PlannerOutput(SystemErrorPrefix + NoGetMessage(v), [userQuery], false)
  {
  }

  /** Every key missing: the documented defaults. */
  lemma PlanDefaults(userQuery: string, llm: string -> ModelReply, loads: Loads)
    requires llm(userQuery).Reply? && loads(CleanJsonOutput(llm(userQuery).content)) == Ok(JObj(map[]))
    ensures Plan(userQuery, llm, loads) == PlannerOutput("No reasoning provided.", [userQuery], false)
  {
    PlanOfObject(userQuery, llm, loads, map[]);
    StringListOfStrArray([userQuery]);
  }

  /** A present, well-typed object is taken as it is, so an explicit empty query list passes through. */
  lemma PlanKeepsModelQueries(userQuery: string, llm: string -> ModelReply, loads: Loads, reasoning: string, queries: seq<string>, visual: bool)
    requires llm(userQuery).Reply?
    requires loads(CleanJsonOutput(llm(userQuery).content))
             == Ok(JObj(map["reasoning" := JStr(reasoning), "search_queries" := StrArray(queries), "need_visual_understanding" := JBool(visual)]))
    ensures Plan(userQuery, llm, loads) == PlannerOutput(reasoning, queries, visual)
  {
    var data := map["reasoning" := JStr(reasoning), "search_queries" := StrArray(queries), "need_visual_understanding" := JBool(visual)];
    PlanOfObject(userQuery, llm, loads, data);
    FullObject(userQuery, reasoning, queries, visual);
  }

  lemma FullObject(userQuery: string, reasoning: string, queries: seq<string>, visual: bool)
    ensures FromObject(userQuery, map["reasoning" := JStr(reasoning), "search_queries" := StrArray(queries), "need_visual_understanding" := JBool(visual)])
            == Ok(PlannerOutput(reasoning, queries, visual))
  {
    StringListOfStrArray(queries);
  }

  /** Once the reply decodes to an object, the plan is the object's conversion or the system-error fallback for its error. */
  lemma PlanOfObject(userQuery: string, llm: string -> ModelReply, loads: Loads, data: map<string, Json>)
    requires llm(userQuery).Reply? && loads(CleanJsonOutput(llm(userQuery).content)) == Ok(JObj(data))
    ensures Plan(userQuery, llm, loads)
            == (if FromObject(userQuery, data).Ok? then FromObject(userQuery, data).value
                else Fallback(userQuery, SystemErrorPrefix + FromObject(userQuery, data).error))
  {
  }

  /** The plan for "X" whose model replies "not json" (decoded by a `json.loads` that rejects it). */
  lemma PlanNotJsonExample(llm: string -> ModelReply, loads: Loads)
    requires llm("X") == Reply("not json") && loads("not json").Err?
    ensures Plan("X", llm, loads).searchQueries == ["X"] && !Plan("X", llm, loads).needVisualUnderstanding
  {
    assert Trimmed("not json");
    KeepsUnfenced("not json");
  }
}
