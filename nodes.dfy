/** The four processing steps of the evaluation graph (nodes.py).  Each step reads the
    current `State` and returns a partial update, a `Fields` dictionary that the graph
    merges over the state.

    The language model is an oracle: `llm(k, p)` is the reply to the `k`-th call of a run
    when the prompt is `p`, so the same prompt may get different replies at different
    calls.  A reply is either a text or an exception, which propagates out of the step.
    The website fetch is a plain function from URL to text: its success text, or the
    "Error: ..." / "Exception: ..." text nodes.py:34-42 returns on failure. */
module Nodes {
  import opened Wrappers
  import opened Text
  import opened Constants
  import RatingExtractor

  /** What each prompt contains; the fixed wording around it is not modelled. */
  datatype Prompt =
    | Describe(snippet: string)                                  // nodes.py:60-63
    | Decide(descricao: string, insights: string)                // nodes.py:82-87
    | Insight(descricao: string, insights: string)               // nodes.py:107-112
    | Trends(descricao: string, thought: string)                 // nodes.py:118-121
    | Final(descricao: string, insights: string, trends: string) // nodes.py:143-149

  /** The outcome of one `llm.invoke`: the reply's `content`, or a raised exception. */
  datatype Reply = Raised | Says(text: string)

  type Model = (nat, Prompt) -> Reply

  /** What a step does: a partial update and the number of model calls it made, or an
      exception raised by a model call. */
  datatype StepResult = Updated(update: Fields, calls: nat) | Failed

  /** The failure texts of the fetch start with "Error" or "Exception". */
  predicate IsFetchError(content: string) {
    StartsWith(content, "Error") || StartsWith(content, "Exception")
  }

  /** `content[:1000]` */
  function Snippet(content: string): (r: string)
    ensures |r| <= 1000 && StartsWith(content, r)
    ensures |content| <= 1000 ==> r == content
    ensures |content| > 1000 ==> |r| == 1000
  {
    if |content| <= 1000 then content else content[..1000]
  }

  /** The insights as the prompts show them: `', '.join(pensamentos)`, or "Nenhum" when
      there are none. */
  function InsightsText(pensamentos: seq<string>): (r: string)
    ensures pensamentos == [] ==> r == "Nenhum"
    ensures |pensamentos| == 1 ==> r == pensamentos[0]
  {
    if pensamentos == [] then "Nenhum" else Join(pensamentos, ", ")
  }

  /** Each new insight is shown after the earlier ones, separated by ", " (as after the
      second and third rounds). */
  lemma InsightsTextAppend(pensamentos: seq<string>, insight: string)
    requires pensamentos != []
    ensures InsightsText(pensamentos + [insight]) == InsightsText(pensamentos) + ", " + insight
  {
    JoinAppend(pensamentos, insight, ", ");
  }

  /** Every key of the dictionary is present, as in an update built from `{**state, ...}`. */
  predicate HasAllKeys(u: Fields) {
    u.url.Some? && u.descricao.Some? && u.tendenciasMercado.Some? && u.avaliacao.Some? &&
    u.respostaFinal.Some? && u.enough.Some? && u.interacoes.Some? && u.pensamentos.Some?
  }

  /** `step_descriptor` (nodes.py:45-66). */
  function Descriptor(s: State, fetch: string -> string, llm: Model, k: nat): StepResult {
    var content := fetch(s.url);
    if IsFetchError(content) then Updated(NoFields.(descricao := Some(content)), 0)
    else
      match llm(k, Describe(Snippet(content)))
      case Raised => Failed
      case Says(d) => Updated(Full(s).(descricao := Some(Strip(d))), 1)
  }

  /** A fetch failure text becomes the description as it is, without a model call, and
      the update holds that one key; otherwise the model describes the first 1000
      characters, and the stripped reply replaces the description while every other field
      is kept. */
  lemma DescriptorUpdate(s: State, fetch: string -> string, llm: Model, k: nat)
    ensures var r := Descriptor(s, fetch, llm, k);
      IsFetchError(fetch(s.url)) ==>
        r.Updated? && r.calls == 0 && r.update == NoFields.(descricao := Some(fetch(s.url)))
    ensures var r, reply := Descriptor(s, fetch, llm, k), llm(k, Describe(Snippet(fetch(s.url))));
      !IsFetchError(fetch(s.url)) ==>
        (r.Failed? <==> reply.Raised?) &&
        (r.Updated? ==> r.calls == 1 && HasAllKeys(r.update) &&
                        Merge(s, r.update) == s.(descricao := Strip(reply.text)))
  {
  }

  /** A lower-cased text never contains "True", whose first letter is a capital. */
  lemma NeverAffirmative(t: string)
    ensures !Contains(Lower(t), "True")
  {
    FirstCharAbsent(Lower(t), "True");
  }

  /** `step_decision` (nodes.py:69-91). */
  function Decision(s: State, llm: Model, k: nat): StepResult {
    if s.interacoes >= 3 then Updated(NoFields.(enough := Some(true)), 0)
    else
      match llm(k, Decide(s.descricao, InsightsText(s.pensamentos)))
      case Raised => Failed
      case Says(t) => Updated(Full(s).(enough := Some(Contains(Lower(t), "True"))), 1)
  }

  /** From the third round on, `enough` is set to True without a model call and the
      update holds that one key; before that the model is asked, and `enough` ends up
      False whatever it replies, every other field being kept. */
  lemma DecisionUpdate(s: State, llm: Model, k: nat)
    ensures var r := Decision(s, llm, k);
      s.interacoes >= 3 ==>
        r.Updated? && r.calls == 0 && r.update == NoFields.(enough := Some(true))
    ensures var r := Decision(s, llm, k);
      s.interacoes < 3 ==>
        (r.Failed? <==> llm(k, Decide(s.descricao, InsightsText(s.pensamentos))).Raised?) &&
        (r.Updated? ==> r.calls == 1 && HasAllKeys(r.update) &&
                        Merge(s, r.update) == s.(enough := false))
  {
    if s.interacoes < 3 {
      match llm(k, Decide(s.descricao, InsightsText(s.pensamentos)))
      case Raised =>
      case Says(t) => NeverAffirmative(t);
    }
  }

  /** `step_think_more` (nodes.py:94-130). */
  function ThinkMore(s: State, llm: Model, k: nat): StepResult {
    match llm(k, Insight(s.descricao, InsightsText(s.pensamentos)))
    case Raised => Failed
    case Says(a) =>
      var thought := Strip(a);
      match llm(k + 1, Trends(s.descricao, thought))
      case Raised => Failed
      case Says(b) =>
        Updated(Full(s).(interacoes := Some(s.interacoes + 1),
                         pensamentos := Some(s.pensamentos + [thought]),
                         tendenciasMercado := Some(Strip(b))), 2)
  }

  /** An insight round makes two model calls, one for a new insight and one for the
      market trends: the counter goes up by one, the stripped insight is appended to the
      old insights, the stripped trend reply replaces the old summary, and every other
      field is kept. */
  lemma ThinkMoreUpdate(s: State, llm: Model, k: nat)
    ensures var r := ThinkMore(s, llm, k);
      r.Failed? <==>
        match llm(k, Insight(s.descricao, InsightsText(s.pensamentos)))
        case Raised => true
        case Says(a) => llm(k + 1, Trends(s.descricao, Strip(a))).Raised?
    ensures var r := ThinkMore(s, llm, k);
      r.Updated? ==>
        var s' := Merge(s, r.update);
        var thought := Strip(llm(k, Insight(s.descricao, InsightsText(s.pensamentos))).text);
        r.calls == 2 && HasAllKeys(r.update) &&
        s'.interacoes == s.interacoes + 1 &&
        |s'.pensamentos| == |s.pensamentos| + 1 &&
        s'.pensamentos[..|s.pensamentos|] == s.pensamentos &&
        s'.pensamentos[|s.pensamentos|] == thought &&
        s'.tendenciasMercado == Strip(llm(k + 1, Trends(s.descricao, thought)).text) &&
        s'.url == s.url && s'.descricao == s.descricao && s'.avaliacao == s.avaliacao &&
        s'.respostaFinal == s.respostaFinal && s'.enough == s.enough
  {
    match llm(k, Insight(s.descricao, InsightsText(s.pensamentos)))
    case Raised =>
    case Says(a) =>
      var thought := Strip(a);
      assert (s.pensamentos + [thought])[..|s.pensamentos|] == s.pensamentos;
  }

  /** `step_finalize` (nodes.py:133-180). */
  function Finalize(s: State, llm: Model, k: nat): StepResult {
    match llm(k, Final(s.descricao, InsightsText(s.pensamentos), s.tendenciasMercado))
    case Raised => Failed
    case Says(a) =>
      var final := Strip(a);
      Updated(Full(s).(respostaFinal := Some(final), avaliacao := Some(RatingExtractor.Rating(final))), 1)
  }

  /** One model call: the stripped reply becomes the final answer, the rating is
      extracted from that same stripped text, and every other field is kept. */
  lemma FinalizeUpdate(s: State, llm: Model, k: nat)
    ensures var r, reply := Finalize(s, llm, k),
                            llm(k, Final(s.descricao, InsightsText(s.pensamentos), s.tendenciasMercado));
      (r.Failed? <==> reply.Raised?) &&
      (r.Updated? ==> r.calls == 1 && HasAllKeys(r.update) &&
                      Merge(s, r.update) == s.(respostaFinal := Strip(reply.text),
                                               avaliacao := RatingExtractor.Rating(Strip(reply.text))))
  {
  }

  /** On a fetch failure the descriptor step asks the model nothing: its result is the
      same whatever the model and the call counter are. */
  lemma DescriptorErrorNeedsNoModel(s: State, fetch: string -> string, llm1: Model, llm2: Model, k1: nat, k2: nat)
    requires IsFetchError(fetch(s.url))
    ensures Descriptor(s, fetch, llm1, k1) == Descriptor(s, fetch, llm2, k2)
    ensures Merge(s, Descriptor(s, fetch, llm1, k1).update) == s.(descricao := fetch(s.url))
  {
    DescriptorUpdate(s, fetch, llm1, k1);
  }

  /** Only the first 1000 characters of the page reach the model: two fetches whose texts
      agree there (and are not failure texts) give the same descriptor step. */
  lemma DescriptorSeesOnlySnippet(s: State, fetch1: string -> string, fetch2: string -> string, llm: Model, k: nat)
    requires !IsFetchError(fetch1(s.url)) && !IsFetchError(fetch2(s.url))
    requires Snippet(fetch1(s.url)) == Snippet(fetch2(s.url))
    ensures Descriptor(s, fetch1, llm, k) == Descriptor(s, fetch2, llm, k)
    ensures |Snippet(fetch1(s.url))| <= 1000
  {
  }

  /** At the cap the decision step asks the model nothing. */
  lemma DecisionCapNeedsNoModel(s: State, llm1: Model, llm2: Model, k1: nat, k2: nat)
    requires s.interacoes >= 3
    ensures Decision(s, llm1, k1) == Decision(s, llm2, k2)
    ensures Merge(s, Decision(s, llm1, k1).update) == s.(enough := true)
  {
    DecisionUpdate(s, llm1, k1);
  }

  /** The trend summary is replaced, not accumulated: the previous summary has no effect
      on the state after an insight round. */
  lemma ThinkMoreOverwritesTrends(s: State, prior: string, llm: Model, k: nat)
    ensures var r1, r2 := ThinkMore(s, llm, k), ThinkMore(s.(tendenciasMercado := prior), llm, k);
      r1.Updated? == r2.Updated? &&
      (r1.Updated? ==> Merge(s, r1.update) == Merge(s.(tendenciasMercado := prior), r2.update))
  {
  }

  /** An insight round keeps the number of insights equal to the round counter. */
  lemma ThinkMoreKeepsCount(s: State, llm: Model, k: nat)
    requires |s.pensamentos| == s.interacoes
    requires ThinkMore(s, llm, k).Updated?
    ensures var s' := Merge(s, ThinkMore(s, llm, k).update); |s'.pensamentos| == s'.interacoes
  {
    ThinkMoreUpdate(s, llm, k);
  }

  /** The rating stored by the finalize step is the one the extractor computes from the
      final answer stored beside it, and is never negative. */
  lemma FinalizeRatesItsAnswer(s: State, llm: Model, k: nat)
    requires Finalize(s, llm, k).Updated?
    ensures var s' := Merge(s, Finalize(s, llm, k).update);
      s'.avaliacao == RatingExtractor.Rating(s'.respostaFinal) && s'.avaliacao >= 0 &&
      Strip(s'.respostaFinal) == s'.respostaFinal
  {
    FinalizeUpdate(s, llm, k);
    StripIdempotent(llm(k, Final(s.descricao, InsightsText(s.pensamentos), s.tendenciasMercado)).text);
  }
}
