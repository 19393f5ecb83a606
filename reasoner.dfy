/**
 * agents/reasoner_agent.py: the reasoner writes the draft answer. It lays the
 * retrieved text and the vision results out as one context string, sends it
 * with the question to the chat model `llm`, and decodes the reply into a
 * `ReasonerOutput`; `run` never raises once the context is built.
 */
module Reasoner {
  import opened Wrappers
  import opened Text
  import opened Json
  import opened Schema
  import opened Codec

  /**
   * One element of `vl_results`: a pydantic record (`model_dump`), an object
   * whose attributes are read through `__dict__`, or a dict used as it is.
   * Attribute and entry values are taken to be strings already.
   */
  datatype VlResult = Record(output: VLOutput) | Attrs(attrs: map<string, string>) | Dict(entries: map<string, string>)

  /** The dict the reasoner reads a vision result through. */
  function AsDict(item: VlResult): map<string, string>
  {
    match item
    case Record(o) => map["description" := o.description, "insights" := o.insights]
    case Attrs(a) => a
    case Dict(d) => d
  }

  /** The loop at the start of `run` that turns every vision result into a dict, in order. */
  method NormaliseVlResults(items: seq<VlResult>) returns (data: seq<map<string, string>>)
    ensures |data| == |items|
    ensures forall i :: 0 <= i < |items| ==> data[i] == AsDict(items[i])
  {
    data := [];
    for i := 0 to |items|
      invariant |data| == i
      invariant forall j :: 0 <= j < i ==> data[j] == AsDict(items[j])
    {
      data := data + [AsDict(items[i])];
    }
  }

  /** A pydantic record keeps both its fields under their own names. */
  lemma RecordAsDict(o: VLOutput)
    ensures "description" in AsDict(Record(o)) && AsDict(Record(o))["description"] == o.description
    ensures "insights" in AsDict(Record(o)) && AsDict(Record(o))["insights"] == o.insights
  {
  }

  /** `item.get(key, "N/A")`. */
  function Lookup(d: map<string, string>, key: string): string
  {
    if key in d then d[key] else "N/A"
  }

  /** The paragraph for the figure numbered `k` (counting from one). */
  function FigureBlock(k: nat, d: map<string, string>): string
  {
    "Figure Analysis " + NatToString(k) + ":\n- Description: " + Lookup(d, "description")
    + "\n- Key Insight: " + Lookup(d, "insights") + "\n\n"
  }

  /** The paragraphs for `ds`, numbered 1, 2, ... in order. */
  function Blocks(ds: seq<map<string, string>>): string
    decreases |ds|
  {
    if ds == [] then "" else Blocks(ds[..|ds| - 1]) + FigureBlock(|ds|, ds[|ds| - 1])
  }

  /** Extending the list by its next element appends that element's paragraph. */
  lemma BlocksStep(ds: seq<map<string, string>>, idx: nat)
    requires idx < |ds|
    ensures Blocks(ds[..idx + 1]) == Blocks(ds[..idx]) + FigureBlock(idx + 1, ds[idx])
  {
    var p := ds[..idx + 1];
    assert p[..|p| - 1] == ds[..idx];
    assert p[|p| - 1] == ds[idx];
  }

  const TextHeader := "### 1. Textual Evidence (from Papers):\n"
  const VisualHeader := "\n\n### 2. Visual Evidence (from Figures):\n"
  const NoTextEvidence := "No text evidence found."
  const NoVisualEvidence := "No visual evidence provided."

  function TextSection(retrievedText: string): string
  {
    TextHeader + (if retrievedText != "" then retrievedText else NoTextEvidence)
  }

  /** The context `_format_context` builds. */
  function Context(retrievedText: string, ds: seq<map<string, string>>): string
  {
    TextSection(retrievedText) + VisualHeader + (if ds == [] then NoVisualEvidence else Blocks(ds))
  }

  /** `_format_context`, which appends one paragraph per vision result. */
  method FormatContext(retrievedText: string, ds: seq<map<string, string>>) returns (context: string)
    ensures context == Context(retrievedText, ds)
  {
    context := TextSection(retrievedText);
    context := context + VisualHeader;
    ghost var head := context;
    if ds != [] {
      assert Blocks(ds[..0]) == [] by {
        assert ds[..0] == [];
      }
      assert context == head + Blocks(ds[..0]);
      for idx := 0 to |ds|
        invariant context == head + Blocks(ds[..idx])
      {
        var block := FigureBlock(idx + 1, ds[idx]);
        BlocksStep(ds, idx);
        AppendAssoc(head, Blocks(ds[..idx]), block);
        context := context + block;
      }
      assert ds[..|ds|] == ds;
    } else {
      context := context + NoVisualEvidence;
    }
  }

  /** Every vision result appears in the block list under its own number. */
  lemma {:induction false} BlocksShowEveryFigure(ds: seq<map<string, string>>, j: nat)
    requires j < |ds|
    ensures Contains(Blocks(ds), FigureBlock(j + 1, ds[j]))
    decreases |ds|
  {
    var init := ds[..|ds| - 1];
    if j == |ds| - 1 {
      assert FigureBlock(|ds|, ds[|ds| - 1]) == FigureBlock(j + 1, ds[j]);
      ContainsAt(FigureBlock(j + 1, ds[j]), FigureBlock(j + 1, ds[j]), 0);
      ContainsConcat(Blocks(init), FigureBlock(|ds|, ds[|ds| - 1]), FigureBlock(j + 1, ds[j]));
    } else {
      BlocksShowEveryFigure(init, j);
      assert init[j] == ds[j];
      ContainsConcat(Blocks(init), FigureBlock(|ds|, ds[|ds| - 1]), FigureBlock(j + 1, ds[j]));
    }
  }

  /**
   * The context always opens with the textual evidence (or its placeholder),
   * shows every vision result as "Figure Analysis k" with k its position
   * plus one, and says so explicitly when there is none.
   */
  lemma ContextLayout(retrievedText: string, ds: seq<map<string, string>>, j: nat)
    requires j < |ds|
    ensures StartsWith(Context(retrievedText, ds), TextSection(retrievedText))
    ensures Contains(Context(retrievedText, ds), FigureBlock(j + 1, ds[j]))
    ensures Context(retrievedText, []) == TextSection(retrievedText) + VisualHeader + NoVisualEvidence
  {
    var c := Context(retrievedText, ds);
    var head := TextSection(retrievedText) + VisualHeader;
    assert c == head + Blocks(ds);
    assert c[..|TextSection(retrievedText)|] == TextSection(retrievedText);
    BlocksShowEveryFigure(ds, j);
    ContainsConcat(head, Blocks(ds), FigureBlock(j + 1, ds[j]));
  }

  /** A figure's description reaches its paragraph (when the dict has one, otherwise "N/A" does). */
  lemma FigureBlockShowsDescription(k: nat, d: map<string, string>)
    ensures Contains(FigureBlock(k, d), Lookup(d, "description"))
    ensures Contains(FigureBlock(k, d), Lookup(d, "insights"))
  {
    var a := "Figure Analysis " + NatToString(k) + ":\n- Description: ";
    var desc := Lookup(d, "description");
    var ins := Lookup(d, "insights");
    var b := a + desc + "\n- Key Insight: ";
    ContainsSuffix(a, desc);
    ContainsConcat(a + desc, "\n- Key Insight: ", desc);
    ContainsConcat(b, ins, desc);
    ContainsConcat(b + ins, "\n\n", desc);
    ContainsSuffix(b, ins);
    ContainsConcat(b + ins, "\n\n", ins);
  }

  const ParseErrorTrace := "JSON Parse Error"
  const SystemErrorTrace := "System Error"
  const ErrorAnswerPrefix := "An error occurred while generating the answer: "

  /** The record returned when anything other than a JSON decode error is raised. */
  function SystemFailure(msg: string): ReasonerOutput
  {
    ReasonerOutput(ErrorAnswerPrefix + msg, [], SystemErrorTrace)
  }

  /** `ReasonerOutput(... data.get(...) ...)`: defaults for missing keys, exact JSON types otherwise. */
  function FromObject(data: map<string, Json>): Result<ReasonerOutput, string>
  {
    var trace := GetOr(data, "reasoning_trace", JStr("No trace provided."));
    var answer := GetOr(data, "draft_answer", JStr("No answer provided."));
    var cites := GetOr(data, "citations", JArr([]));
    if !answer.JStr? then Err(ValidationMessage("ReasonerOutput", "draft_answer"))
    else match StringList(cites)
      case None => Err(ValidationMessage("ReasonerOutput", "citations"))
      case Some(cs) =>
        if !trace.JStr? then Err(ValidationMessage("ReasonerOutput", "reasoning_trace"))
        else Ok(ReasonerOutput(answer.s, cs, trace.s))
  }

  /** The decoding half of `run`, once the model has answered with `reply`. */
  function DraftFromReply(reply: ModelReply, loads: Loads): ReasonerOutput
  {
    if reply.CallFailed? then SystemFailure(reply.message)
    else
      var r := loads(CleanJsonOutput(reply.content));
      if r.Err? then ReasonerOutput(reply.content, [], ParseErrorTrace)
      else if !r.value.JObj? then SystemFailure(NoGetMessage(r.value))
      else
        var f := FromObject(r.value.fields);
        if f.Ok? then f.value else SystemFailure(f.error)
  }

  /** What `run` returns: the model sees the question and the formatted context and nothing else. */
  function Answer(query: string, retrievedText: string, vlResults: seq<VlResult>,
                  llm: (string, string) -> ModelReply, loads: Loads): ReasonerOutput
  {
    var ds := seq(|vlResults|, i requires 0 <= i < |vlResults| => AsDict(vlResults[i]));
    DraftFromReply(llm(query, Context(retrievedText, ds)), loads)
  }

  /** `ReasonerAgent.run`. */
  method Run(query: string, retrievedText: string, vlResults: seq<VlResult>,
             llm: (string, string) -> ModelReply, loads: Loads) returns (out: ReasonerOutput)
    ensures out == Answer(query, retrievedText, vlResults, llm, loads)
  {
    var data := NormaliseVlResults(vlResults);
    assert data == seq(|vlResults|, i requires 0 <= i < |vlResults| => AsDict(vlResults[i]));
    var context := FormatContext(retrievedText, data);
    var reply := llm(query, context);
    out := DraftFromReply(reply, loads);
  }

  /** The object the model's reply decodes to, when there is one. */
  function DecodedObject(reply: ModelReply, loads: Loads): Option<map<string, Json>>
  {
    if reply.CallFailed? then None
    else
      var r := loads(CleanJsonOutput(reply.content));
      if r.Ok? && r.value.JObj? then Some(r.value.fields) else None
  }

  /** A validated object yields its own citation list, or none when the key is missing. */
  lemma FromObjectCitations(data: map<string, Json>)
    ensures var f := FromObject(data);
            f.Ok? ==> (if "citations" in data then StringList(data["citations"]) == Some(f.value.citations)
                       else f.value.citations == [])
  {
    if "citations" !in data {
      StringListOfStrArray([]);
    }
  }

  /** Citations are never invented: they are empty unless the model's JSON object lists exactly them. */
  lemma CitationsComeFromModel(reply: ModelReply, loads: Loads)
    ensures var out := DraftFromReply(reply, loads);
            var d := DecodedObject(reply, loads);
            out.citations == []
            || (d.Some? && "citations" in d.value && StringList(d.value["citations"]) == Some(out.citations))
  {
    var d := DecodedObject(reply, loads);
    if d.Some? {
      FromObjectCitations(d.value);
    }
  }

  /** A failed model call is reported inside the draft, with the "System Error" trace. */
  lemma DraftOnCallFailure(msg: string, loads: Loads)
    ensures DraftFromReply(CallFailed(msg), loads)
            == ReasonerOutput("An error occurred while generating the answer: " + msg, [], "System Error")
  {
  }

  /** A reply that is not JSON becomes the draft as it stands, uncleaned. */
  lemma DraftOnJsonError(content: string, loads: Loads)
    requires loads(CleanJsonOutput(content)).Err?
    ensures DraftFromReply(Reply(content), loads) == ReasonerOutput(content, [], "JSON Parse Error")
  {
  }

  /** An object with wrongly typed fields, or JSON that is no object, takes the system-error path. */
  lemma DraftOnInvalidObject(content: string, loads: Loads)
    requires loads(CleanJsonOutput(content)).Ok?
    requires var v := loads(CleanJsonOutput(content)).value;
             !v.JObj? || FromObject(v.fields).Err?
    ensures DraftFromReply(Reply(content), loads).reasoningTrace == "System Error"
    ensures DraftFromReply(Reply(content), loads).citations == []
  {
  }

  /** Every key missing: the documented defaults. */
  lemma DraftDefaults(content: string, loads: Loads)
    requires loads(CleanJsonOutput(content)) == Ok(JObj(map[]))
    ensures DraftFromReply(Reply(content), loads) == ReasonerOutput("No answer provided.", [], "No trace provided.")
  {
    DraftOfObject(content, loads, map[]);
    StringListOfStrArray([]);
  }

  /** A well-typed object is taken field by field. */
  lemma DraftKeepsModelFields(content: string, loads: Loads, answer: string, cites: seq<string>, trace: string)
    requires loads(CleanJsonOutput(content))
             == Ok(JObj(map["reasoning_trace" := JStr(trace), "draft_answer" := JStr(answer), "citations" := StrArray(cites)]))
    ensures DraftFromReply(Reply(content), loads) == ReasonerOutput(answer, cites, trace)
  {
    var data := map["reasoning_trace" := JStr(trace), "draft_answer" := JStr(answer), "citations" := StrArray(cites)];
    DraftOfObject(content, loads, data);
    FullObject(answer, cites, trace);
  }

  lemma FullObject(answer: string, cites: seq<string>, trace: string)
    ensures FromObject(map["reasoning_trace" := JStr(trace), "draft_answer" := JStr(answer), "citations" := StrArray(cites)])
            == Ok(ReasonerOutput(answer, cites, trace))
  {
    StringListOfStrArray(cites);
  }

  /** Once the reply decodes to an object, the draft is the object's conversion or the system-error draft for its error. */
  lemma DraftOfObject(content: string, loads: Loads, data: map<string, Json>)
    requires loads(CleanJsonOutput(content)) == Ok(JObj(data))
    ensures DraftFromReply(Reply(content), loads)
            == (if FromObject(data).Ok? then FromObject(data).value else SystemFailure(FromObject(data).error))
  {
  }
}
