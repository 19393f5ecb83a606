/**
 * The web question answering of app.py (`chat_pipeline`): the same
 * controller as the command line, with its own early exits and its own final
 * text. The pipeline streams (reply, logs) pairs; the model keeps the last
 * pair's reply and leaves the logs out.
 */
module Web {
  import opened Wrappers
  import opened Text
  import opened Schema
  import opened Controller
  import Codec
  import Json
  import Planner

  const EmptyNotice: string := "请输入问题。"
  const SystemErrorPrefix: string := "系统错误: "
  const CitationsHeading: string := "\n\n**📚 Citations:**\n"
  const ApologyPrefix: string := "抱歉，经过多次尝试，我无法生成满足质量要求的回答。\n最后一次草稿：\n"

  /**
   * The last pair the pipeline yields: for an empty message the chat history
   * unchanged, with the notice in the log slot; otherwise the reply text.
   */
  datatype Reply = KeepHistory(notice: string) | Answer(text: string)

  /** The final reply and, when the planner answered, the conversation that produced it. */
  datatype Outcome = Outcome(reply: Reply, conversation: Option<Conversation>)

  /** `planner.plan` as the web front end sees it: a plan, or the message of the exception it raised. */
  type PlannerCall = string -> Result<PlannerOutput, string>

  /**
   * The final handling: the accepted draft, followed by the citations block
   * when it cites anything; otherwise the apology with the last draft.
   */
  function FinalText(dl: Deliberation): string
  {
    if dl.accepted.Some? then
      var answer := dl.accepted.value;
      answer.draftAnswer
      + (if answer.citations != [] then CitationsHeading + Join(Bullets(answer.citations), "\n") else "")
    else
      ApologyPrefix + (if dl.rounds != [] then dl.rounds[|dl.rounds| - 1].draft.draftAnswer else "")
  }

  /** `chat_pipeline(user_message, history)`, by its last yield. */
  function Chat(msg: string, planner: PlannerCall, st: Stages): Outcome
  {
    if msg == "" then Outcome(KeepHistory(EmptyNotice), None)
    else
      var p := planner(msg);
      if p.Err? then Outcome(Answer(SystemErrorPrefix + p.error), None)
      else
        var c := Converse(Web, msg, p.value, st);
        Outcome(Answer(FinalText(c.deliberation)), Some(c))
  }

  /** The calls made while answering `msg`: none for an empty message, only the planner when it raised. */
  function CallLog(msg: string, o: Outcome): seq<Event>
  {
    if o.conversation.Some? then Events(msg, o.conversation.value)
    else if msg == "" then []
    else [Planned(msg)]
  }

  method ChatPipeline(msg: string, planner: PlannerCall, st: Stages) returns (o: Outcome)
    ensures o == Chat(msg, planner, st)
  {
    if msg == "" {
      return Outcome(KeepHistory(EmptyNotice), None);
    }
    var p := planner(msg);
    if p.Err? {
      return Outcome(Answer(SystemErrorPrefix + p.error), None);
    }
    var plan := p.value;
    var searches, context := Gather(plan.searchQueries, st.retrieve);
    var dl := RunRounds(Web, msg, st, context, |searches|);
    var text := FinalText(dl);
    o := Outcome(Answer(text), Some(Conversation(plan, searches, dl)));
  }

  /** An empty message gets the notice and calls nothing, whatever the planner would have said. */
  lemma EmptyMessage(planner: PlannerCall, st: Stages)
    ensures Chat("", planner, st) == Outcome(KeepHistory(EmptyNotice), None)
    ensures CallLog("", Chat("", planner, st)) == []
  {
  }

  /**
   * When the planner raises, the reply reports its message and nothing but
   * the planner was called: no retrieval, no reasoner call.
   */
  lemma PlannerFailure(msg: string, planner: PlannerCall, st: Stages)
    requires msg != "" && planner(msg).Err?
    ensures var o := Chat(msg, planner, st);
      && o.reply == Answer(SystemErrorPrefix + planner(msg).error)
      && StartsWith(o.reply.text, SystemErrorPrefix)
      && CallLog(msg, o) == [Planned(msg)]
      && Retrievals(CallLog(msg, o)) == 0
  {
    var o := Chat(msg, planner, st);
    assert (SystemErrorPrefix + planner(msg).error)[..|SystemErrorPrefix|] == SystemErrorPrefix;
    assert [Planned(msg)][1..] == [];
  }

  /**
   * `PlannerAgent.plan` catches every exception itself, so with the real
   * planner the failure branch is never taken: a non-empty message always
   * reaches the controller with the plan.
   */
  lemma RealPlannerNeverRaises(msg: string, llm: string -> Codec.ModelReply, loads: Json.Loads, st: Stages)
    requires msg != ""
    ensures Chat(msg, m => Ok(Planner.Plan(m, llm, loads)), st).conversation
            == Some(Converse(Web, msg, Planner.Plan(msg, llm, loads), st))
  {
  }

  /**
   * On a non-empty message the planner answers, and the reply is the final
   * text of the controller run on that plan.
   */
  lemma PlannedRun(msg: string, planner: PlannerCall, st: Stages)
    requires msg != "" && planner(msg).Ok?
    ensures var o := Chat(msg, planner, st);
      && o.conversation == Some(Converse(Web, msg, planner(msg).value, st))
      && CallLog(msg, o)[0] == Planned(msg)
      && Retrievals(CallLog(msg, o)) == o.conversation.value.deliberation.calls
  {
    RetrievalCount(Web, msg, planner(msg).value, st);
  }

  /**
   * The web context: first the planned searches, each as its "Search Result
   * for" segment in plan order; then, after a rejected round that asked for
   * more evidence, a "Supplemental" segment with what the retriever returned.
   */
  lemma ContextSegments(msg: string, plan: PlannerOutput, st: Stages, i: nat)
    requires i < |Converse(Web, msg, plan, st).deliberation.rounds|
    ensures var c := Converse(Web, msg, plan, st);
      var rs := c.deliberation.rounds;
      && (forall k :: 0 <= k < |plan.searchQueries| ==>
            c.searches[k] == Search(plan.searchQueries[k], st.retrieve(k, plan.searchQueries[k])))
      && (i == 0 ==> rs[i].context == Context(c.searches))
      && (i > 0 ==>
            rs[i].context == rs[i - 1].context
              + (if rs[i - 1].supplement.Some?
                 then "\n--- Supplemental ---\n" + rs[i - 1].supplement.value.result + "\n" else ""))
  {
    var c := Converse(Web, msg, plan, st);
    RoundsOfController(Web, msg, st, Context(c.searches), |c.searches|, i);
  }

  /**
   * The reasoner's query: the message itself on the first round and after a
   * non-truthy critique; otherwise the message with the latest critique
   * quoted. The reviewer always judges against the message itself.
   */
  lemma RetryQueries(msg: string, plan: PlannerOutput, st: Stages, i: nat)
    requires i < |Converse(Web, msg, plan, st).deliberation.rounds|
    ensures var rs := Converse(Web, msg, plan, st).deliberation.rounds;
      var r := rs[i];
      && r.review == st.review(i, msg, r.draft)
      && (i == 0 ==> r.query == msg)
      && (i > 0 && Truthy(rs[i - 1].review.critique) ==>
            r.query == msg + "\n(Critique from previous turn: " + rs[i - 1].review.critique.value + ")")
      && (i > 0 && !Truthy(rs[i - 1].review.critique) ==> r.query == msg)
  {
    var c := Converse(Web, msg, plan, st);
    RoundsOfController(Web, msg, st, Context(c.searches), |c.searches|, i);
  }

  /**
   * An accepted answer is the draft of the first accepted round, which the
   * reply starts with; it is that draft alone when it cites nothing, and
   * otherwise the draft, the sources heading and one bullet per citation.
   */
  lemma AcceptedReply(msg: string, plan: PlannerOutput, st: Stages)
    requires Converse(Web, msg, plan, st).deliberation.accepted.Some?
    ensures |Converse(Web, msg, plan, st).deliberation.rounds| >= 1
    ensures var dl := Converse(Web, msg, plan, st).deliberation;
      var last := dl.rounds[|dl.rounds| - 1];
      var text := FinalText(dl);
      && last.review.decision == ACCEPT
      && (forall i :: 0 <= i < |dl.rounds| - 1 ==> dl.rounds[i].review.decision == REJECT)
      && StartsWith(text, last.draft.draftAnswer)
      && (last.draft.citations == [] ==> text == last.draft.draftAnswer)
      && (last.draft.citations != [] ==> text == last.draft.draftAnswer + CitationsHeading + Join(Bullets(last.draft.citations), "\n"))
      && (forall i :: 0 <= i < |last.draft.citations| ==> Contains(text, "- " + last.draft.citations[i]))
  {
    var c := Converse(Web, msg, plan, st);
    var dl := c.deliberation;
    StopsAtFirstAccept(SupplementalHeader(Web), Stepper(Web, msg, st), Some(""), Context(c.searches), |c.searches|);
    var answer := dl.accepted.value;
    var text := FinalText(dl);
    var rest := if answer.citations != [] then CitationsHeading + Join(Bullets(answer.citations), "\n") else "";
    assert text == answer.draftAnswer + rest;
    assert text[..|answer.draftAnswer|] == answer.draftAnswer;
    forall i | 0 <= i < |answer.citations|
      ensures Contains(text, "- " + answer.citations[i])
    {
      var bullets := Bullets(answer.citations);
      JoinContains(bullets, "\n", i);
      ContainsConcat(CitationsHeading, Join(bullets, "\n"), bullets[i]);
      ContainsConcat(answer.draftAnswer, rest, bullets[i]);
    }
  }

  /**
   * When every round is rejected, three rounds ran and the reply is the
   * apology followed by the third round's draft.
   */
  lemma ExhaustedReply(msg: string, plan: PlannerOutput, st: Stages)
    requires Converse(Web, msg, plan, st).deliberation.accepted.None?
    ensures var rs := Converse(Web, msg, plan, st).deliberation.rounds;
      && |rs| == MaxRounds
      && (forall i :: 0 <= i < |rs| ==> rs[i].review.decision == REJECT)
      && FinalText(Converse(Web, msg, plan, st).deliberation) == ApologyPrefix + rs[2].draft.draftAnswer
  {
    var c := Converse(Web, msg, plan, st);
    StopsAtFirstAccept(SupplementalHeader(Web), Stepper(Web, msg, st), Some(""), Context(c.searches), |c.searches|);
  }
}
