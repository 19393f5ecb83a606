/**
 * The command-line question answering of main.py (`run_chat_pipeline`):
 * plan, gather the planned searches, run the reason/review loop of the
 * Controller, then print the FINAL RESPONSE section. Console output other
 * than that section is left out; the section is modelled as the sequence of
 * items printed, in order.
 */
module Cli {
  import opened Wrappers
  import opened Text
  import opened Schema
  import opened Controller
  import Json
  import Codec
  import Planner

  const FailureNotice: string := "[bold red]Failed to generate a satisfactory answer after retries.[/bold red]"
  const SourcesHeading: string := "\n[bold]Sources:[/bold]"

  /**
   * The FINAL RESPONSE section: the accepted draft and, when it cites
   * anything, the sources heading and one bullet per citation; otherwise the
   * failure notice followed by the last round's draft.
   */
  function FinalLines(dl: Deliberation): seq<string>
  {
    if dl.accepted.Some? then
      var answer := dl.accepted.value;
      [answer.draftAnswer] + (if answer.citations != [] then [SourcesHeading] + Bullets(answer.citations) else [])
    else
      [FailureNotice] + (if dl.rounds != [] then [dl.rounds[|dl.rounds| - 1].draft.draftAnswer] else [])
  }

  /** Prints the FINAL RESPONSE section, one citation per pass of the loop. */
  method Render(dl: Deliberation) returns (lines: seq<string>)
    ensures lines == FinalLines(dl)
  {
    if dl.accepted.Some? {
      var answer := dl.accepted.value;
      lines := [answer.draftAnswer];
      if answer.citations != [] {
        lines := lines + [SourcesHeading];
        ghost var head := lines;
        for i := 0 to |answer.citations|
          invariant lines == head + Bullets(answer.citations[..i])
        {
          assert answer.citations[..i + 1][..i] == answer.citations[..i];
          lines := lines + ["- " + answer.citations[i]];
        }
        assert answer.citations[..|answer.citations|] == answer.citations;
      }
    } else {
      lines := [FailureNotice];
      if dl.rounds != [] {
        lines := lines + [dl.rounds[|dl.rounds| - 1].draft.draftAnswer];
      }
    }
  }

  /**
   * `run_chat_pipeline`: the planner once, the planned searches, the loop,
   * then the final section.
   */
  method RunChatPipeline(q: string, llm: string -> Codec.ModelReply, loads: Json.Loads, st: Stages)
    returns (c: Conversation, lines: seq<string>)
    ensures c == Converse(Cli, q, Planner.Plan(q, llm, loads), st)
    ensures lines == FinalLines(c.deliberation)
  {
    var plan := Planner.Plan(q, llm, loads);
    var searches, context := Gather(plan.searchQueries, st.retrieve);
    var dl := RunRounds(Cli, q, st, context, |searches|);
    c := Conversation(plan, searches, dl);
    lines := Render(dl);
  }

  /**
   * When an answer is accepted, the section shows the draft of the round
   * that ACCEPTed it, the first accepted round, then its sources exactly
   * when it cites any, one bullet per citation in order.
   */
  lemma AcceptedOutput(q: string, plan: PlannerOutput, st: Stages)
    requires Converse(Cli, q, plan, st).deliberation.accepted.Some?
    ensures |Converse(Cli, q, plan, st).deliberation.rounds| >= 1
    ensures var rs := Converse(Cli, q, plan, st).deliberation.rounds;
      var last := rs[|rs| - 1];
      var lines := FinalLines(Converse(Cli, q, plan, st).deliberation);
      && last.review.decision == ACCEPT
      && (forall i :: 0 <= i < |rs| - 1 ==> rs[i].review.decision == REJECT)
      && lines[0] == last.draft.draftAnswer
      && (last.draft.citations == [] <==> |lines| == 1)
      && (last.draft.citations != [] ==>
            |lines| == 2 + |last.draft.citations| && lines[1] == SourcesHeading
            && forall i :: 0 <= i < |last.draft.citations| ==> lines[2 + i] == "- " + last.draft.citations[i])
  {
    var c := Converse(Cli, q, plan, st);
    StopsAtFirstAccept(SupplementalHeader(Cli), Stepper(Cli, q, st), Some(""), Context(c.searches), |c.searches|);
  }

  /**
   * When every round is rejected, three rounds ran and the section is the
   * failure notice followed by the third round's draft.
   */
  lemma ExhaustedOutput(q: string, plan: PlannerOutput, st: Stages)
    requires Converse(Cli, q, plan, st).deliberation.accepted.None?
    ensures var rs := Converse(Cli, q, plan, st).deliberation.rounds;
      && |rs| == MaxRounds
      && (forall i :: 0 <= i < |rs| ==> rs[i].review.decision == REJECT)
      && FinalLines(Converse(Cli, q, plan, st).deliberation) == [FailureNotice, rs[2].draft.draftAnswer]
  {
    var c := Converse(Cli, q, plan, st);
    StopsAtFirstAccept(SupplementalHeader(Cli), Stepper(Cli, q, st), Some(""), Context(c.searches), |c.searches|);
  }

  /**
   * The reasoner's query: the user's query itself on the first round and
   * after a non-truthy critique; otherwise the query followed by the latest
   * critique as PREVIOUS FEEDBACK. The reviewer always judges against the
   * user's query itself.
   */
  lemma RetryQueries(q: string, plan: PlannerOutput, st: Stages, i: nat)
    requires i < |Converse(Cli, q, plan, st).deliberation.rounds|
    ensures var rs := Converse(Cli, q, plan, st).deliberation.rounds;
      var r := rs[i];
      && r.review == st.review(i, q, r.draft)
      && (i == 0 ==> r.query == q)
      && (i > 0 && Truthy(rs[i - 1].review.critique) ==>
            r.query == q + "\n\n(PREVIOUS FEEDBACK: " + rs[i - 1].review.critique.value + ". Please improve the answer.)")
      && (i > 0 && !Truthy(rs[i - 1].review.critique) ==> r.query == q)
  {
    var c := Converse(Cli, q, plan, st);
    RoundsOfController(Cli, q, st, Context(c.searches), |c.searches|, i);
  }

  /**
   * After a rejected round that asked for more evidence, the next round's
   * context is the previous one followed by a "Supplemental Evidence"
   * segment holding what the retriever returned; otherwise it is unchanged.
   */
  lemma SupplementalSegments(q: string, plan: PlannerOutput, st: Stages, i: nat)
    requires 0 < i < |Converse(Cli, q, plan, st).deliberation.rounds|
    ensures var rs := Converse(Cli, q, plan, st).deliberation.rounds;
      rs[i].context == rs[i - 1].context
        + (if rs[i - 1].supplement.Some?
           then "\n--- Supplemental Evidence ---\n" + rs[i - 1].supplement.value.result + "\n" else "")
  {
    var c := Converse(Cli, q, plan, st);
    RoundsOfController(Cli, q, st, Context(c.searches), |c.searches|, i);
  }
}
