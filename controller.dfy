/**
 * The question-answering controller that main.py (`run_chat_pipeline`) and
 * app.py (`chat_pipeline`) both run: plan once, retrieve once per planned
 * query into a growing context, then at most three reason/review rounds that
 * stop at the first ACCEPT, feed the latest critique back into the next query
 * and append supplemental evidence when the reviewer asks for it.
 *
 * The two front ends differ only in the wording of the critique note and of
 * the supplemental header (`Dialect`). The retriever, reasoner and reviewer
 * are oracles: the retriever is indexed by its call number, the other two by
 * the round, since a language model may answer the same prompt differently.
 */
module Controller {
  import opened Wrappers
  import opened Text
  import opened Schema

  datatype Dialect = Cli | Web

  /** `max_retries`: the loop runs while `current_attempt <= max_retries`. */
  const MaxRetries: nat := 2
  const MaxRounds: nat := MaxRetries + 1

  /** The agents the controller drives, as oracles. */
  datatype Stages = Stages(
    retrieve: (nat, string) -> string,                    // the k-th `retriever.run(query)`
    reason: (nat, string, string) -> ReasonerOutput,      // round, effective query, context
    review: (nat, string, ReasonerOutput) -> ReviewerOutput) // round, query given, draft

  /** One retriever call: what was asked and what came back. */
  datatype Search = Search(query: string, result: string)

  // ---------------------------------------------------------------------------
  // Retrieval of the planned queries
  // ---------------------------------------------------------------------------

  /** The segment a planned query's result adds to `aggregated_context`. */
  function SearchSegment(s: Search): string
  {
    "\n--- Search Result for '" + s.query + "' ---\n" + s.result + "\n"
  }

  /** The retriever calls made for the planned queries: the i-th query in plan order is the i-th call. */
  function Searches(queries: seq<string>, retrieve: (nat, string) -> string): (ss: seq<Search>)
    ensures |ss| == |queries|
    ensures forall i :: 0 <= i < |ss| ==> ss[i] == Search(queries[i], retrieve(i, queries[i]))
    decreases |queries|
  {
    if queries == [] then []
    else
      var n := |queries| - 1;
      Searches(queries[..n], retrieve) + [Search(queries[n], retrieve(n, queries[n]))]
  }

  /** `aggregated_context` after the retrieval loop: one segment per search, in order. */
  function Context(ss: seq<Search>): string
    decreases |ss|
  {
    if ss == [] then "" else Context(ss[..|ss| - 1]) + SearchSegment(ss[|ss| - 1])
  }

  /** The retrieval loop: one retriever call per planned query, each result appended to the context. */
  method Gather(queries: seq<string>, retrieve: (nat, string) -> string)
    returns (searches: seq<Search>, context: string)
    ensures searches == Searches(queries, retrieve)
    ensures context == Context(searches)
  {
    searches, context := [], "";
    for i := 0 to |queries|
      invariant searches == Searches(queries[..i], retrieve)
      invariant context == Context(searches)
    {
      var result := retrieve(i, queries[i]);
      assert queries[..i + 1][..i] == queries[..i];
      var s := Search(queries[i], result);
      assert (searches + [s])[..|searches|] == searches;
      searches := searches + [s];
      context := context + SearchSegment(s);
    }
    assert queries[..|queries|] == queries;
  }

  /** The context of a shorter run of searches is a prefix of the full one. */
  lemma {:induction false} ContextExtends(ss: seq<Search>, i: nat)
    requires i <= |ss|
    ensures StartsWith(Context(ss), Context(ss[..i]))
    decreases |ss|
  {
    if i < |ss| {
      var n := |ss| - 1;
      assert ss[..n][..i] == ss[..i];
      ContextExtends(ss[..n], i);
      PrefixConcat(Context(ss[..n]), Context(ss[..i]), SearchSegment(ss[n]));
    } else {
      assert ss[..i] == ss;
    }
  }

  /** Every retrieved result, and the query it answers, appear in the context. */
  lemma {:induction false} ContextShowsSearch(ss: seq<Search>, i: nat)
    requires i < |ss|
    ensures Contains(Context(ss), ss[i].result)
    ensures Contains(Context(ss), ss[i].query)
    decreases |ss|
  {
    var n := |ss| - 1;
    var seg := SearchSegment(ss[n]);
    if i == n {
      var head := "\n--- Search Result for '";
      var mid := "' ---\n";
      assert seg == head + ss[n].query + mid + ss[n].result + "\n";
      assert seg[|head|..|head| + |ss[n].query|] == ss[n].query;
      ContainsAt(seg, ss[n].query, |head|);
      var at := |head| + |ss[n].query| + |mid|;
      assert seg[at..at + |ss[n].result|] == ss[n].result;
      ContainsAt(seg, ss[n].result, at);
    } else {
      assert ss[..n][i] == ss[i];
      ContextShowsSearch(ss[..n], i);
    }
    ContainsConcat(Context(ss[..n]), seg, ss[i].result);
    ContainsConcat(Context(ss[..n]), seg, ss[i].query);
  }

  lemma PrefixConcat(a: string, b: string, c: string)
    requires StartsWith(a, b)
    ensures StartsWith(a + c, b)
  {
    assert (a + c)[..|b|] == a[..|b|];
  }

  // ---------------------------------------------------------------------------
  // The reason/review rounds
  // ---------------------------------------------------------------------------

  /** The note a truthy critique adds to the next reasoner query. */
  function FeedbackNote(d: Dialect, critique: string): string
  {
    match d
    case Cli => "\n\n(PREVIOUS FEEDBACK: " + critique + ". Please improve the answer.)"
    case Web => "\n(Critique from previous turn: " + critique + ")"
  }

  /** The header of the segment supplemental evidence adds to the context. */
  function SupplementalHeader(d: Dialect): string
  {
    match d
    case Cli => "\n--- Supplemental Evidence ---\n"
    case Web => "\n--- Supplemental ---\n"
  }

  lemma NoteShowsCritique(d: Dialect, query: string, critique: string)
    ensures Contains(query + FeedbackNote(d, critique), critique)
  {
    var r := query + FeedbackNote(d, critique);
    var head := if d.Cli? then "\n\n(PREVIOUS FEEDBACK: " else "\n(Critique from previous turn: ";
    var tail := if d.Cli? then ". Please improve the answer.)" else ")";
    assert r == query + head + critique + tail;
    var at := |query| + |head|;
    assert r[at..at + |critique|] == critique;
    ContainsAt(r, critique, at);
  }

  /**
   * `effective_query`: the user's query, followed by the feedback note only
   * when the latest critique is truthy (neither None nor empty).
   */
  function Refined(d: Dialect, query: string, feedback: Option<string>): string
  {
    if Truthy(feedback) then query + FeedbackNote(d, feedback.value) else query
  }

  /**
   * The effective query always starts with the user's query; it is that query
   * unchanged exactly when the critique is not truthy, and otherwise it quotes
   * the critique.
   */
  lemma RefinedForm(d: Dialect, query: string, feedback: Option<string>)
    ensures StartsWith(Refined(d, query, feedback), query)
    ensures Refined(d, query, feedback) == query <==> !Truthy(feedback)
    ensures Truthy(feedback) ==> Contains(Refined(d, query, feedback), feedback.value)
  {
    if Truthy(feedback) {
      NoteShowsCritique(d, query, feedback.value);
      assert |FeedbackNote(d, feedback.value)| > 0;
    }
  }

  /**
   * One round: the effective query and the context the reasoner was given,
   * its draft, the verdict, and the supplemental search a rejection triggered.
   */
  datatype Round = Round(query: string, context: string, draft: ReasonerOutput,
                         review: ReviewerOutput, supplement: Option<Search>)

  /**
   * The loop's variables: `current_attempt`, `feedback`, `aggregated_context`,
   * the number of retriever calls made so far, the rounds run so far and
   * `final_answer`.
   */
  datatype Deliberation = Deliberation(attempt: nat, feedback: Option<string>, context: string, calls: nat,
                                       rounds: seq<Round>, accepted: Option<ReasonerOutput>)

  /** Round `attempt`, given the latest critique, the current context and the retriever calls so far. */
  function Attempt(d: Dialect, q: string, st: Stages, attempt: nat, feedback: Option<string>,
                   context: string, calls: nat): Round
  {
    var query := Refined(d, q, feedback);
    var draft := st.reason(attempt, query, context);
    var review := st.review(attempt, q, draft);
    var ask := review.feedbackForRetriever;
    var supplement :=
      if review.decision == REJECT && Truthy(ask) then Some(Search(ask.value, st.retrieve(calls, ask.value)))
      else None;
    Round(query, context, draft, review, supplement)
  }

  /**
   * A round as a function of the attempt number, the latest critique, the
   * context and the retriever calls so far. The loop is stated for any such
   * step; `Stepper` is the one the controller runs.
   */
  type Step = (nat, Option<string>, string, nat) -> Round

  function Stepper(d: Dialect, q: string, st: Stages): Step
  {
    (attempt: nat, feedback: Option<string>, context: string, calls: nat) =>
      Attempt(d, q, st, attempt, feedback, context, calls)
  }

  /** A step that records the context it was given. */
  ghost predicate Honest(step: Step)
  {
    forall attempt, feedback, context, calls :: step(attempt, feedback, context, calls).context == context
  }

  lemma StepperHonest(d: Dialect, q: string, st: Stages)
    ensures Honest(Stepper(d, q, st))
  {
    var step := Stepper(d, q, st);
    forall attempt, feedback, context, calls
      ensures step(attempt, feedback, context, calls).context == context
    {
      assert step(attempt, feedback, context, calls) == Attempt(d, q, st, attempt, feedback, context, calls);
    }
  }

  /** What a round adds to the context, given the dialect's supplemental header. */
  function Evidence(header: string, r: Round): string
  {
    if r.supplement.Some? then header + r.supplement.value.result + "\n" else ""
  }

  /** The number of retriever calls a round makes. */
  function Fetched(r: Round): nat
  {
    if r.supplement.Some? then 1 else 0
  }

  /** The number of supplemental searches in a run of rounds. */
  function Supplements(rs: seq<Round>): nat
    decreases |rs|
  {
    if rs == [] then 0 else Supplements(rs[..|rs| - 1]) + Fetched(rs[|rs| - 1])
  }

  /** The loop before its first round. */
  function Start(feedback: Option<string>, context: string, calls: nat): Deliberation
  {
    Deliberation(0, feedback, context, calls, [], None)
  }

  /** A state the loop has left: an answer was accepted, or `current_attempt > max_retries`. */
  predicate Stopped(s: Deliberation)
  {
    s.accepted.Some? || s.attempt > MaxRetries
  }

  /**
   * One pass of the loop body: run the round; on ACCEPT record the final
   * answer and stop; otherwise take its critique as the feedback, append its
   * supplemental evidence and move to the next attempt.
   */
  function Next(header: string, step: Step, s: Deliberation): Deliberation
  {
    if Stopped(s) then s
    else
      var r := step(s.attempt, s.feedback, s.context, s.calls);
      if r.review.decision == ACCEPT then s.(rounds := s.rounds + [r], accepted := Some(r.draft))
      else Deliberation(s.attempt + 1, r.review.critique, s.context + Evidence(header, r), s.calls + Fetched(r),
                        s.rounds + [r], None)
  }

  /** The loop after `n` passes. */
  function Run(header: string, step: Step, s: Deliberation, n: nat): Deliberation
  {
    if n == 0 then s else Next(header, step, Run(header, step, s, n - 1))
  }

  /** The whole loop: `feedback = ""` at first, so the first query is the user's own. */
  function Deliberate(d: Dialect, q: string, st: Stages, context: string, calls: nat): Deliberation
  {
    Run(SupplementalHeader(d), Stepper(d, q, st), Start(Some(""), context, calls), MaxRounds)
  }

  /** Once the loop has stopped, further passes change nothing. */
  lemma {:induction false} StoppedStays(header: string, step: Step, s: Deliberation, a: nat, n: nat)
    requires a <= n
    requires Stopped(Run(header, step, s, a))
    ensures Run(header, step, s, n) == Run(header, step, s, a)
    decreases n - a
  {
    if a < n {
      StoppedStays(header, step, s, a, n - 1);
    }
  }

  lemma NextAccepts(header: string, step: Step, s: Deliberation, r: Round)
    requires !Stopped(s) && r == step(s.attempt, s.feedback, s.context, s.calls) && r.review.decision == ACCEPT
    ensures Next(header, step, s) == s.(rounds := s.rounds + [r], accepted := Some(r.draft))
  {
  }

  lemma NextRejects(header: string, step: Step, s: Deliberation, r: Round)
    requires !Stopped(s) && r == step(s.attempt, s.feedback, s.context, s.calls) && r.review.decision == REJECT
    ensures Next(header, step, s) == Deliberation(s.attempt + 1, r.review.critique, s.context + Evidence(header, r),
                                                  s.calls + Fetched(r), s.rounds + [r], None)
  {
  }

  /** One attempt of the loop body: reasoner, reviewer, and the supplemental search a rejection asks for. */
  method RunAttempt(d: Dialect, q: string, st: Stages, attempt: nat, feedback: Option<string>,
                    context: string, calls: nat) returns (r: Round)
    ensures r == Attempt(d, q, st, attempt, feedback, context, calls)
  {
    var query := q;
    if Truthy(feedback) {
      query := query + FeedbackNote(d, feedback.value);
    }
    var draft := st.reason(attempt, query, context);
    var review := st.review(attempt, q, draft);
    var supplement: Option<Search> := None;
    if review.decision == REJECT && Truthy(review.feedbackForRetriever) {
      var ask := review.feedbackForRetriever.value;
      var evidence := st.retrieve(calls, ask);
      supplement := Some(Search(ask, evidence));
    }
    r := Round(query, context, draft, review, supplement);
  }

  /**
   * One pass of the loop body on the loop's variables: run the attempt; on
   * ACCEPT record `final_answer`; otherwise keep the critique as the next
   * feedback, append the supplemental evidence and count the attempt.
   */
  method Pass(d: Dialect, q: string, st: Stages, s: Deliberation) returns (s': Deliberation)
    requires !Stopped(s)
    ensures s' == Next(SupplementalHeader(d), Stepper(d, q, st), s)
  {
    var r := RunAttempt(d, q, st, s.attempt, s.feedback, s.context, s.calls);
    assert r == Stepper(d, q, st)(s.attempt, s.feedback, s.context, s.calls);
    if r.review.decision == ACCEPT {
      s' := s.(rounds := s.rounds + [r], accepted := Some(r.draft));
      NextAccepts(SupplementalHeader(d), Stepper(d, q, st), s, r);
    } else {
      var context := s.context;
      var calls := s.calls;
      if r.supplement.Some? {
        context := context + SupplementalHeader(d) + r.supplement.value.result + "\n";
        calls := calls + 1;
      }
      s' := Deliberation(s.attempt + 1, r.review.critique, context, calls, s.rounds + [r], None);
      NextRejects(SupplementalHeader(d), Stepper(d, q, st), s, r);
    }
  }

  /**
   * The reason/review loop: at most `max_retries + 1` attempts, leaving at
   * the first ACCEPT. The last round's draft is `draft_output`.
   */
  method RunRounds(d: Dialect, q: string, st: Stages, context: string, calls: nat)
    returns (dl: Deliberation)
    ensures dl == Deliberate(d, q, st, context, calls)
  {
    ghost var header, step := SupplementalHeader(d), Stepper(d, q, st);
    var start := Start(Some(""), context, calls);
    dl := start;
    ghost var n: nat := 0;
    while dl.attempt <= MaxRetries && dl.accepted.None?
      invariant n <= MaxRounds && dl == Run(header, step, start, n)
      invariant dl.accepted.None? ==> dl.attempt == n
      decreases MaxRounds - n
    {
      PassAdvances(header, step, start, dl, n);
      dl := Pass(d, q, st, dl);
      n := n + 1;
    }
    StoppedStays(header, step, start, n, MaxRounds);
  }

  /** One more pass of a running loop is the next iterate, and a round that rejects advances the attempt. */
  lemma PassAdvances(header: string, step: Step, start: Deliberation, dl: Deliberation, n: nat)
    requires dl == Run(header, step, start, n) && !Stopped(dl)
    requires dl.accepted.None? ==> dl.attempt == n
    ensures var next := Next(header, step, dl);
            next == Run(header, step, start, n + 1) && (next.accepted.None? ==> next.attempt == n + 1)
  {
  }

  /**
   * The loop from the start, written out: at most three rounds r0, r1, r2,
   * each run on the previous round's critique and the context and call count
   * it left; the loop ends at the first ACCEPT or after the third rejection.
   */
  lemma Unroll(header: string, step: Step, feedback: Option<string>, context: string, calls: nat)
    returns (r0: Round, r1: Round, r2: Round)
    ensures r0 == step(0, feedback, context, calls)
    ensures r1 == step(1, r0.review.critique, context + Evidence(header, r0), calls + Fetched(r0))
    ensures r2 == step(2, r1.review.critique, context + Evidence(header, r0) + Evidence(header, r1),
                       calls + Fetched(r0) + Fetched(r1))
    ensures var dl := Run(header, step, Start(feedback, context, calls), MaxRounds);
      r0.review.decision == ACCEPT ==>
        dl.rounds == [r0] && dl.accepted == Some(r0.draft) && dl.context == context && dl.calls == calls
    ensures var dl := Run(header, step, Start(feedback, context, calls), MaxRounds);
      r0.review.decision == REJECT && r1.review.decision == ACCEPT ==>
        && dl.rounds == [r0, r1] && dl.accepted == Some(r1.draft)
        && dl.context == context + Evidence(header, r0) && dl.calls == calls + Fetched(r0)
    ensures var dl := Run(header, step, Start(feedback, context, calls), MaxRounds);
      r0.review.decision == REJECT && r1.review.decision == REJECT && r2.review.decision == ACCEPT ==>
        && dl.rounds == [r0, r1, r2] && dl.accepted == Some(r2.draft)
        && dl.context == context + Evidence(header, r0) + Evidence(header, r1)
        && dl.calls == calls + Fetched(r0) + Fetched(r1)
    ensures var dl := Run(header, step, Start(feedback, context, calls), MaxRounds);
      r0.review.decision == REJECT && r1.review.decision == REJECT && r2.review.decision == REJECT ==>
        && dl.rounds == [r0, r1, r2] && dl.accepted == None
        && dl.context == context + Evidence(header, r0) + Evidence(header, r1) + Evidence(header, r2)
        && dl.calls == calls + Fetched(r0) + Fetched(r1) + Fetched(r2)
  {
    var s0 := Start(feedback, context, calls);
    var s1 := Next(header, step, s0);
    var s2 := Next(header, step, s1);
    var s3 := Next(header, step, s2);
    assert Run(header, step, s0, 3) == s3 by {
      assert Run(header, step, s0, 1) == s1;
      assert Run(header, step, s0, 2) == s2;
    }
    r0 := step(0, feedback, context, calls);
    r1 := step(1, r0.review.critique, context + Evidence(header, r0), calls + Fetched(r0));
    r2 := step(2, r1.review.critique, context + Evidence(header, r0) + Evidence(header, r1),
               calls + Fetched(r0) + Fetched(r1));
    if r0.review.decision == ACCEPT {
      NextAccepts(header, step, s0, r0);
      assert s3 == s1;
    } else {
      NextRejects(header, step, s0, r0);
      if r1.review.decision == ACCEPT {
        NextAccepts(header, step, s1, r1);
        assert s3 == s2;
      } else {
        NextRejects(header, step, s1, r1);
        if r2.review.decision == ACCEPT {
          NextAccepts(header, step, s2, r2);
        } else {
          NextRejects(header, step, s2, r2);
        }
      }
    }
  }

  /**
   * The loop stops at the first ACCEPT: one to three rounds; all but the last
   * rejected; a final answer exactly when the last round was accepted, and
   * then it is that round's draft; and no final answer exactly when three
   * rounds ran and all were rejected.
   */
  lemma StopsAtFirstAccept(header: string, step: Step, feedback: Option<string>, context: string, calls: nat)
    ensures var dl := Run(header, step, Start(feedback, context, calls), MaxRounds);
      var rs := dl.rounds;
      && 1 <= |rs| <= MaxRounds
      && (forall i :: 0 <= i < |rs| - 1 ==> rs[i].review.decision == REJECT)
      && (dl.accepted.Some? <==> rs[|rs| - 1].review.decision == ACCEPT)
      && (dl.accepted.Some? ==> dl.accepted.value == rs[|rs| - 1].draft)
      && (dl.accepted.None? <==> |rs| == MaxRounds && forall i :: 0 <= i < |rs| ==> rs[i].review.decision == REJECT)
  {
    var r0, r1, r2 := Unroll(header, step, feedback, context, calls);
  }

  /** The critique round i is given: the loop's initial feedback, then the previous round's. */
  function FeedbackBefore(feedback: Option<string>, rs: seq<Round>, i: nat): Option<string>
    requires i <= |rs|
  {
    if i == 0 then feedback else rs[i - 1].review.critique
  }

  /** The context round i is given: the loop's initial context, then the previous round's plus its evidence. */
  function ContextBefore(header: string, context: string, rs: seq<Round>, i: nat): string
    requires i <= |rs|
  {
    if i == 0 then context else rs[i - 1].context + Evidence(header, rs[i - 1])
  }

  /**
   * How the rounds follow one another, for an honest step: round i is the
   * step on attempt number i, the critique of the round before, the context
   * of the round before plus its supplemental evidence, and the number of
   * retriever calls made so far.
   */
  lemma RoundAt(header: string, step: Step, feedback: Option<string>, context: string, calls: nat, i: nat)
    requires Honest(step)
    requires i < |Run(header, step, Start(feedback, context, calls), MaxRounds).rounds|
    ensures var rs := Run(header, step, Start(feedback, context, calls), MaxRounds).rounds;
      rs[i] == step(i, FeedbackBefore(feedback, rs, i), ContextBefore(header, context, rs, i), calls + Supplements(rs[..i]))
  {
    var r0, r1, r2 := Unroll(header, step, feedback, context, calls);
    var rs := Run(header, step, Start(feedback, context, calls), MaxRounds).rounds;
    SupplementsUpTo3(r0, r1, r2);
    assert rs[..i] == [r0, r1, r2][..i] by {
      if r0.review.decision == ACCEPT {
      } else if r1.review.decision == ACCEPT {
      } else {
      }
    }
    if i == 0 {
    } else if i == 1 {
      assert rs[0] == r0 && [r0, r1, r2][..1] == [r0];
      assert r0.context == context;
    } else {
      assert rs[1] == r1 && [r0, r1, r2][..2] == [r0, r1];
      assert r1.context == context + Evidence(header, r0);
    }
  }

  /**
   * Where the loop leaves the context and the call count: the last round's
   * context, plus its supplemental evidence when it was rejected; and one
   * retriever call per supplemental search of a rejected round.
   */
  lemma FinalState(header: string, step: Step, feedback: Option<string>, context: string, calls: nat)
    requires Honest(step)
    ensures var dl := Run(header, step, Start(feedback, context, calls), MaxRounds);
      var rs := dl.rounds;
      && |rs| >= 1
      && dl.context == rs[|rs| - 1].context + (if dl.accepted.Some? then "" else Evidence(header, rs[|rs| - 1]))
      && dl.calls == calls + Supplements(rs[..|rs| - 1]) + (if dl.accepted.Some? then 0 else Fetched(rs[|rs| - 1]))
  {
    var r0, r1, r2 := Unroll(header, step, feedback, context, calls);
    var rs := Run(header, step, Start(feedback, context, calls), MaxRounds).rounds;
    SupplementsUpTo3(r0, r1, r2);
    if r0.review.decision == ACCEPT {
      assert rs[..0] == [];
    } else if r1.review.decision == ACCEPT {
      assert rs[..1] == [r0];
    } else {
      assert rs[..2] == [r0, r1];
    }
  }

  lemma SupplementsUpTo3(r0: Round, r1: Round, r2: Round)
    ensures Supplements([]) == 0
    ensures Supplements([r0]) == Fetched(r0)
    ensures Supplements([r0, r1]) == Fetched(r0) + Fetched(r1)
    ensures Supplements([r0, r1, r2]) == Fetched(r0) + Fetched(r1) + Fetched(r2)
  {
    assert [r0][..0] == [];
    assert [r0, r1][..1] == [r0];
    assert [r0, r1, r2][..2] == [r0, r1];
  }

  /** For an honest step, each round records the context `ContextBefore` says it was given. */
  lemma ContextsRecorded(header: string, step: Step, feedback: Option<string>, context: string, calls: nat)
    requires Honest(step)
    ensures var rs := Run(header, step, Start(feedback, context, calls), MaxRounds).rounds;
      forall k {:trigger ContextBefore(header, context, rs, k)} :: 0 <= k < |rs| ==> rs[k].context == ContextBefore(header, context, rs, k)
  {
    var rs := Run(header, step, Start(feedback, context, calls), MaxRounds).rounds;
    forall k | 0 <= k < |rs|
      ensures rs[k].context == ContextBefore(header, context, rs, k)
    {
      RoundAt(header, step, feedback, context, calls, k);
    }
  }

  /** `aggregated_context` is only appended to: each round's context is a prefix of every later one's and of the final one. */
  lemma ContextOnlyGrows(header: string, step: Step, feedback: Option<string>, context: string, calls: nat, i: nat, j: nat)
    requires Honest(step)
    requires i <= j < |Run(header, step, Start(feedback, context, calls), MaxRounds).rounds|
    ensures var dl := Run(header, step, Start(feedback, context, calls), MaxRounds);
      StartsWith(dl.rounds[j].context, dl.rounds[i].context) && StartsWith(dl.context, dl.rounds[i].context)
  {
    var dl := Run(header, step, Start(feedback, context, calls), MaxRounds);
    var rs := dl.rounds;
    var last := |rs| - 1;
    ContextsRecorded(header, step, feedback, context, calls);
    FinalState(header, step, feedback, context, calls);
    ContextsPrefix(header, context, rs, i, j);
    ContextsPrefix(header, context, rs, i, last);
    PrefixConcat(rs[last].context, rs[i].context, if dl.accepted.Some? then "" else Evidence(header, rs[last]));
  }

  lemma {:induction false} ContextsPrefix(header: string, context: string, rs: seq<Round>, i: nat, j: nat)
    requires i <= j <= |rs|
    requires forall k {:trigger ContextBefore(header, context, rs, k)} :: 0 <= k < |rs| ==> rs[k].context == ContextBefore(header, context, rs, k)
    ensures StartsWith(ContextBefore(header, context, rs, j), ContextBefore(header, context, rs, i))
    decreases j - i
  {
    if i < j {
      ContextsPrefix(header, context, rs, i, j - 1);
      var prev := ContextBefore(header, context, rs, j - 1);
      var ev := Evidence(header, rs[j - 1]);
      assert rs[j - 1].context == prev;
      assert ContextBefore(header, context, rs, j) == prev + ev;
      PrefixConcat(prev, ContextBefore(header, context, rs, i), ev);
    }
  }

  /**
   * The controller's rounds, one by one: round i asks the reasoner the user's
   * query refined by the latest critique only, on that round's context; the
   * reviewer always judges the draft against the original query; and a
   * supplemental search happens in exactly the rejected rounds whose
   * `feedback_for_retriever` is truthy, asks that text, and is the next
   * retriever call in order.
   */
  lemma RoundsOfController(d: Dialect, q: string, st: Stages, context: string, calls: nat, i: nat)
    requires i < |Deliberate(d, q, st, context, calls).rounds|
    ensures var rs := Deliberate(d, q, st, context, calls).rounds;
      var r := rs[i];
      var ask := r.review.feedbackForRetriever;
      && r.query == Refined(d, q, FeedbackBefore(Some(""), rs, i))
      && r.context == ContextBefore(SupplementalHeader(d), context, rs, i)
      && r.draft == st.reason(i, r.query, r.context)
      && r.review == st.review(i, q, r.draft)
      && (r.supplement.Some? <==> r.review.decision == REJECT && Truthy(ask))
      && (r.supplement.Some? ==> r.supplement.value == Search(ask.value, st.retrieve(calls + Supplements(rs[..i]), ask.value)))
  {
    var step := Stepper(d, q, st);
    var header := SupplementalHeader(d);
    var rs := Deliberate(d, q, st, context, calls).rounds;
    StepperHonest(d, q, st);
    RoundAt(header, step, Some(""), context, calls, i);
    var fb, ctx, k := FeedbackBefore(Some(""), rs, i), ContextBefore(header, context, rs, i), calls + Supplements(rs[..i]);
    assert rs[i] == step(i, fb, ctx, k);
    assert rs[i] == Attempt(d, q, st, i, fb, ctx, k);
  }

  // ---------------------------------------------------------------------------
  // The whole conversation and its call log
  // ---------------------------------------------------------------------------

  /** The plan, the planned searches and the loop that followed them. */
  datatype Conversation = Conversation(plan: PlannerOutput, searches: seq<Search>, deliberation: Deliberation)

  /** The controller after the planner has answered `plan`. */
  function Converse(d: Dialect, q: string, plan: PlannerOutput, st: Stages): Conversation
  {
    var searches := Searches(plan.searchQueries, st.retrieve);
    Conversation(plan, searches, Deliberate(d, q, st, Context(searches), |searches|))
  }

  /** The calls the controller makes, in the order it makes them. */
  datatype Event = Planned(query: string) | Retrieved(search: Search)
                 | Reasoned(query: string, context: string) | Reviewed(query: string, draft: ReasonerOutput)

  function SearchEvents(ss: seq<Search>): (es: seq<Event>)
    ensures |es| == |ss|
    decreases |ss|
  {
    if ss == [] then [] else [Retrieved(ss[0])] + SearchEvents(ss[1..])
  }

  /** A round's calls; the reviewer's query is recovered from the verdict oracle by `RoundCalls`. */
  function RoundEvents(q: string, r: Round): seq<Event>
  {
    [Reasoned(r.query, r.context), Reviewed(q, r.draft)]
    + (if r.supplement.Some? then [Retrieved(r.supplement.value)] else [])
  }

  function RoundsEvents(q: string, rs: seq<Round>): seq<Event>
    decreases |rs|
  {
    if rs == [] then [] else RoundsEvents(q, rs[..|rs| - 1]) + RoundEvents(q, rs[|rs| - 1])
  }

  /** The call log of a conversation on query `q`, the planner call first. */
  function Events(q: string, c: Conversation): seq<Event>
  {
    [Planned(q)] + SearchEvents(c.searches) + RoundsEvents(q, c.deliberation.rounds)
  }

  /** The number of retriever calls in a log. */
  function Retrievals(es: seq<Event>): nat
    decreases |es|
  {
    if es == [] then 0 else (if es[0].Retrieved? then 1 else 0) + Retrievals(es[1..])
  }

  lemma {:induction false} RetrievalsConcat(a: seq<Event>, b: seq<Event>)
    ensures Retrievals(a + b) == Retrievals(a) + Retrievals(b)
    decreases |a|
  {
    if a != [] {
      assert (a + b)[1..] == a[1..] + b;
      RetrievalsConcat(a[1..], b);
    } else {
      assert a + b == b;
    }
  }

  lemma {:induction false} SearchEventsSpec(ss: seq<Search>)
    ensures forall i :: 0 <= i < |ss| ==> SearchEvents(ss)[i] == Retrieved(ss[i])
    ensures Retrievals(SearchEvents(ss)) == |ss|
    decreases |ss|
  {
    if ss != [] {
      SearchEventsSpec(ss[1..]);
      assert SearchEvents(ss)[1..] == SearchEvents(ss[1..]);
    }
  }

  lemma RoundEventsSpec(q: string, r: Round)
    ensures Retrievals(RoundEvents(q, r)) == Fetched(r)
    ensures forall i :: 0 <= i < |RoundEvents(q, r)| ==> !RoundEvents(q, r)[i].Planned?
  {
    var calls := [Reasoned(r.query, r.context), Reviewed(q, r.draft)];
    var tail := if r.supplement.Some? then [Retrieved(r.supplement.value)] else [];
    RetrievalsConcat(calls, tail);
    assert calls[1..][1..] == [];
    if r.supplement.Some? {
      assert tail[1..] == [];
    }
  }

  lemma {:induction false} RoundsEventsSpec(q: string, rs: seq<Round>)
    ensures Retrievals(RoundsEvents(q, rs)) == Supplements(rs)
    ensures forall i :: 0 <= i < |RoundsEvents(q, rs)| ==> !RoundsEvents(q, rs)[i].Planned?
    ensures rs != [] ==> |RoundsEvents(q, rs)| >= 1 && RoundsEvents(q, rs)[0] == Reasoned(rs[0].query, rs[0].context)
    decreases |rs|
  {
    if rs != [] {
      var init, last := rs[..|rs| - 1], rs[|rs| - 1];
      RoundsEventsSpec(q, init);
      RoundEventsSpec(q, last);
      RetrievalsConcat(RoundsEvents(q, init), RoundEvents(q, last));
      if init != [] {
        assert init[0] == rs[0];
      }
    }
  }

  /**
   * The loop runs at least one round; the first asks the user's own query on
   * the initial context, and if it is accepted it is the only one.
   */
  lemma FirstRound(d: Dialect, q: string, st: Stages, context: string, calls: nat)
    ensures var rs := Deliberate(d, q, st, context, calls).rounds;
            && |rs| >= 1 && rs[0].query == q && rs[0].context == context
            && (rs[0].review.decision == ACCEPT ==> |rs| == 1)
  {
    StopsAtFirstAccept(SupplementalHeader(d), Stepper(d, q, st), Some(""), context, calls);
    RoundsOfController(d, q, st, context, calls, 0);
    RefinedForm(d, q, Some(""));
  }

  /**
   * The planner is called exactly once, first; then the retriever once per
   * planned query in plan order; and only then the reasoner, on the user's
   * own query and the full gathered context.
   */
  lemma PlanThenSearchesThenReason(d: Dialect, q: string, plan: PlannerOutput, st: Stages)
    ensures var c := Converse(d, q, plan, st);
      var es := Events(q, c);
      var n := |plan.searchQueries|;
      && es[0] == Planned(q)
      && (forall i :: 1 <= i < |es| ==> !es[i].Planned?)
      && (forall i :: 0 <= i < n ==> es[1 + i] == Retrieved(Search(plan.searchQueries[i], st.retrieve(i, plan.searchQueries[i]))))
      && |es| > 1 + n
      && es[1 + n] == Reasoned(q, Context(c.searches))
  {
    var c := Converse(d, q, plan, st);
    var es := Events(q, c);
    var n := |plan.searchQueries|;
    var rs := c.deliberation.rounds;
    var header := SupplementalHeader(d);
    SearchEventsSpec(c.searches);
    RoundsEventsSpec(q, rs);
    FirstRound(d, q, st, Context(c.searches), n);
    assert es[1 + n..] == RoundsEvents(q, rs);
    forall i | 1 <= i < |es|
      ensures !es[i].Planned?
    {
      if i <= n {
        assert es[i] == SearchEvents(c.searches)[i - 1];
      } else {
        assert es[i] == RoundsEvents(q, rs)[i - 1 - n];
      }
    }
    forall i | 0 <= i < n
      ensures es[1 + i] == Retrieved(Search(plan.searchQueries[i], st.retrieve(i, plan.searchQueries[i])))
    {
      assert es[1 + i] == SearchEvents(c.searches)[i];
    }
  }

  /**
   * The retriever is called once per planned query plus once per supplemental
   * search; in particular, when the first verdict is ACCEPT, exactly
   * `len(search_queries)` times.
   */
  lemma RetrievalCount(d: Dialect, q: string, plan: PlannerOutput, st: Stages)
    ensures var c := Converse(d, q, plan, st);
      && |c.deliberation.rounds| >= 1
      && Retrievals(Events(q, c)) == |plan.searchQueries| + Supplements(c.deliberation.rounds)
      && Retrievals(Events(q, c)) == c.deliberation.calls
      && (c.deliberation.rounds[0].review.decision == ACCEPT ==> Retrievals(Events(q, c)) == |plan.searchQueries|)
  {
    var c := Converse(d, q, plan, st);
    var rs := c.deliberation.rounds;
    EventsRetrievals(q, c);
    CallsCounted(d, q, st, Context(c.searches), |c.searches|);
    if rs[0].review.decision == ACCEPT {
      FirstRound(d, q, st, Context(c.searches), |c.searches|);
      assert rs == [rs[0]];
      assert Supplements(rs) == Supplements([]) + Fetched(rs[0]);
    }
  }

  /** A log's retriever calls: one per planned search and one per supplemental search. */
  lemma EventsRetrievals(q: string, c: Conversation)
    ensures Retrievals(Events(q, c)) == |c.searches| + Supplements(c.deliberation.rounds)
  {
    SearchEventsSpec(c.searches);
    RoundsEventsSpec(q, c.deliberation.rounds);
    RetrievalsConcat([Planned(q)], SearchEvents(c.searches));
    RetrievalsConcat([Planned(q)] + SearchEvents(c.searches), RoundsEvents(q, c.deliberation.rounds));
    assert Retrievals([Planned(q)]) == 0;
  }

  /**
   * The loop's retriever calls are exactly its supplemental searches, and a
   * round that makes one was rejected.
   */
  lemma CallsCounted(d: Dialect, q: string, st: Stages, context: string, calls: nat)
    ensures var dl := Deliberate(d, q, st, context, calls);
      && |dl.rounds| >= 1
      && dl.calls == calls + Supplements(dl.rounds)
      && forall i :: 0 <= i < |dl.rounds| && dl.rounds[i].supplement.Some? ==> dl.rounds[i].review.decision == REJECT
  {
    var header, step := SupplementalHeader(d), Stepper(d, q, st);
    var rs := Deliberate(d, q, st, context, calls).rounds;
    StepperHonest(d, q, st);
    FinalState(header, step, Some(""), context, calls);
    StopsAtFirstAccept(header, step, Some(""), context, calls);
    forall i | 0 <= i < |rs| && rs[i].supplement.Some?
      ensures rs[i].review.decision == REJECT
    {
      RoundsOfController(d, q, st, context, calls, i);
    }
  }

  // ---------------------------------------------------------------------------
  // Citations, listed the same way by both front ends
  // ---------------------------------------------------------------------------

  /** One `- c` line per citation, in order. */
  function Bullets(cs: seq<string>): (ls: seq<string>)
    ensures |ls| == |cs|
    ensures forall i :: 0 <= i < |cs| ==> ls[i] == "- " + cs[i]
    decreases |cs|
  {
    if cs == [] then [] else Bullets(cs[..|cs| - 1]) + ["- " + cs[|cs| - 1]]
  }
}
