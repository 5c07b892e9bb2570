/** The driver (backend.py): the graph wiring of `build_graph`, and `process_url`, which
    runs the graph from the initial state, keeps the last update the run streams, and maps
    it to the result record.

    The graph engine is replaced by an explicit transition `Next` between the nodes, which
    `build_graph`'s edge set is proved to agree with.  A node runs its step, the step's
    partial update is merged over the state, and the router sees the merged state. */
module Backend {
  import opened Wrappers
  import opened Constants
  import Nodes
  import Routes

  /** The nodes of the graph, with the entry and exit markers. */
  datatype Node = Start | StepDescriptor | StepDecision | StepThinkMore | StepFinalize | End

  /** The names the routing table of routes.py:82-87 uses; the exit marker is the "END"
      that table returns. */
  function Name(n: Node): string {
    match n
    case Start => "START"
    case StepDescriptor => "step_descriptor"
    case StepDecision => "step_decision"
    case StepThinkMore => "step_think_more"
    case StepFinalize => "step_finalize"
    case End => "END"
  }

  /** The two routing functions a conditional edge could use. */
  datatype Router = DecisionRoute | ErrorRoute

  function Route(router: Router, state: Fields): string {
    match router
    case DecisionRoute => Routes.DecisionRouter(state)
    case ErrorRoute => Routes.ErrorRouter(state)
  }

  /** A conditional edge: the router's answer is looked up in `targets`. */
  datatype Branch = Branch(source: Node, router: Router, targets: map<string, Node>)

  /** A compiled graph: its nodes, its plain edges and its conditional edges. */
  datatype Graph = Graph(nodes: seq<Node>, edges: seq<(Node, Node)>, branches: seq<Branch>)

  /** The graph under construction, which `build_graph` fills in call by call. */
  class GraphBuilder {
    var nodes: seq<Node>
    var edges: seq<(Node, Node)>
    var branches: seq<Branch>

    constructor ()
      ensures nodes == [] && edges == [] && branches == []
    {
      nodes, edges, branches := [], [], [];
    }

    method AddNode(n: Node)
      modifies this
      ensures nodes == old(nodes) + [n]
      ensures edges == old(edges) && branches == old(branches)
    {
      nodes := nodes + [n];
    }

    method AddEdge(source: Node, target: Node)
      modifies this
      ensures edges == old(edges) + [(source, target)]
      ensures nodes == old(nodes) && branches == old(branches)
    {
      edges := edges + [(source, target)];
    }

    method AddConditionalEdges(source: Node, router: Router, targets: map<string, Node>)
      modifies this
      ensures branches == old(branches) + [Branch(source, router, targets)]
      ensures nodes == old(nodes) && edges == old(edges)
    {
      branches := branches + [Branch(source, router, targets)];
    }

    function Compile(): Graph
      reads this
    {
      Graph(nodes, edges, branches)
    }
  }

  /** The graph backend.py:34-57 builds. */
  const Wired := Graph(
    [StepDescriptor, StepDecision, StepThinkMore, StepFinalize],
    [(Start, StepDescriptor), (StepDescriptor, StepDecision), (StepThinkMore, StepDecision),
     (StepFinalize, End)],
    [Branch(StepDecision, DecisionRoute,
            map["step_think_more" := StepThinkMore, "step_finalize" := StepFinalize])])

  /** The target of the first plain edge leaving `n`. */
  function EdgeTarget(edges: seq<(Node, Node)>, n: Node): Option<Node> {
    if edges == [] then None
    else if edges[0].0 == n then Some(edges[0].1)
    else EdgeTarget(edges[1..], n)
  }

  /** The first conditional edge leaving `n`. */
  function BranchFor(branches: seq<Branch>, n: Node): Option<Branch> {
    if branches == [] then None
    else if branches[0].source == n then Some(branches[0])
    else BranchFor(branches[1..], n)
  }

  /** Where a graph goes after node `n` when the state is `state`: along its plain edge,
      or where its router's answer leads; None when the graph does not say. */
  function Successor(g: Graph, n: Node, state: Fields): Option<Node> {
    match EdgeTarget(g.edges, n)
    case Some(m) => Some(m)
    case None =>
      match BranchFor(g.branches, n)
      case None => None
      case Some(b) =>
        var key := Route(b.router, state);
        if key in b.targets then Some(b.targets[key]) else None
  }

  /** The transition between nodes, written out. */
  function Next(n: Node, state: Fields): Node {
    match n
    case Start => StepDescriptor
    case StepDescriptor => StepDecision
    case StepDecision =>
      if Routes.DecisionRouter(state) == "step_finalize" then StepFinalize else StepThinkMore
    case StepThinkMore => StepDecision
    case StepFinalize => End
    case End => End
  }

  /** The wired graph and the written-out transition agree at every node and state, and
      nothing leaves the exit. */
  lemma WiredAgreesWithNext(n: Node, state: Fields)
    ensures Successor(Wired, n, state) == if n == End then None else Some(Next(n, state))
  {
    if n == StepDecision {
      assert EdgeTarget(Wired.edges, n) == None;
      assert BranchFor(Wired.branches, n) == Some(Wired.branches[0]);
    }
  }

  /** `build_graph` (backend.py:18-60): the four steps, the edges from the entry to the
      descriptor, from the descriptor to the decision, from the insight round back to the
      decision and from the final step to the exit, and one conditional edge after the
      decision, routed by `decision_router`; `error_router` is wired nowhere. */
  method BuildGraph() returns (g: Graph)
    ensures g == Wired
    ensures forall n: Node, state: Fields ::
      Successor(g, n, state) == if n == End then None else Some(Next(n, state))
    ensures forall b :: b in g.branches ==> b.router == DecisionRoute
  {
    var builder := new GraphBuilder();
    builder.AddNode(StepDescriptor);
    builder.AddNode(StepDecision);
    builder.AddNode(StepThinkMore);
    builder.AddNode(StepFinalize);
    builder.AddEdge(Start, StepDescriptor);
    builder.AddEdge(StepDescriptor, StepDecision);
    builder.AddConditionalEdges(StepDecision, DecisionRoute,
      map["step_think_more" := StepThinkMore, "step_finalize" := StepFinalize]);
    builder.AddEdge(StepThinkMore, StepDecision);
    builder.AddEdge(StepFinalize, End);
    g := builder.Compile();
    assert g == Wired;
    forall n: Node, state: Fields
      ensures Successor(g, n, state) == if n == End then None else Some(Next(n, state))
    {
      WiredAgreesWithNext(n, state);
    }
  }

  /** The wiring agrees with `get_next_node` at each of the four steps. */
  lemma NextAgreesWithGetNextNode(n: Node, state: Fields)
    requires n != Start && n != End
    ensures Routes.GetNextNode(Name(n), state) == Name(Next(n, state))
  {
  }

  /** The nodes that run a step. */
  predicate IsStep(n: Node) {
    n != Start && n != End
  }

  /** The step a node runs, given the model calls made so far. */
  function Execute(n: Node, s: State, fetch: string -> string, llm: Nodes.Model, k: nat): Nodes.StepResult
    requires IsStep(n)
  {
    match n
    case StepDescriptor => Nodes.Descriptor(s, fetch, llm, k)
    case StepDecision => Nodes.Decision(s, llm, k)
    case StepThinkMore => Nodes.ThinkMore(s, llm, k)
    case StepFinalize => Nodes.Finalize(s, llm, k)
  }

  /** The initial state of backend.py:78-87. */
  function Initial(url: string): (s: State)
    ensures s.url == url && s.avaliacao == 0 && !s.enough
    ensures s.descricao == [] && s.tendenciasMercado == [] && s.respostaFinal == []
    ensures s.interacoes == 0 && s.pensamentos == []
  {
    State(url, "", "", 0, "", false, 0, [])
  }

  /** One streamed chunk: the node that ran and the update it returned. */
  datatype Chunk = Chunk(node: Node, update: Fields)

  /** A run of the graph: it completes with its final state, its last chunk, the number
      of model calls and the nodes run in order; or a model call raises. */
  datatype Run =
    | Completed(final: State, last: Option<Chunk>, calls: nat, trace: seq<Node>)
    | Aborted

  /** What holds of every state a run reaches: the round counter is between 0 and 3, the
      insights are as many as the rounds, and an insight round only starts below the cap. */
  predicate RunInv(n: Node, s: State) {
    0 <= s.interacoes <= 3 && |s.pensamentos| == s.interacoes &&
    (n == StepThinkMore ==> s.interacoes < 3)
  }

  /** Position of a node in the order the run visits them within one round. */
  function Rank(n: Node): nat {
    match n
    case Start => 5
    case StepDescriptor => 4
    case StepDecision => 3
    case StepThinkMore => 2
    case StepFinalize => 1
    case End => 0
  }

  /** The run from node `n` in state `s`, with `k` model calls made so far, the last
      chunk streamed and the nodes already run.  It terminates because every insight round
      raises the counter towards the cap of 3 and the other edges go down in `Rank`. */
  function RunFrom(n: Node, s: State, k: nat, last: Option<Chunk>, trace: seq<Node>,
                   fetch: string -> string, llm: Nodes.Model): Run
    requires RunInv(n, s)
    decreases 3 - s.interacoes, Rank(n)
  {
    if n == End then Completed(s, last, k, trace)
    else if n == Start then RunFrom(Next(Start, Full(s)), s, k, last, trace, fetch, llm)
    else
      match Execute(n, s, fetch, llm, k)
      case Failed => Aborted
      case Updated(u, c) =>
        var s' := Merge(s, u);
        RunFrom(Next(n, Full(s')), s', k + c, Some(Chunk(n, u)), trace + [n], fetch, llm)
  }

  /** From the entry the run goes straight to the descriptor step. */
  lemma RunEnters(s: State, k: nat, last: Option<Chunk>, trace: seq<Node>,
                  fetch: string -> string, llm: Nodes.Model)
    requires RunInv(Start, s)
    ensures RunFrom(Start, s, k, last, trace, fetch, llm) ==
            RunFrom(StepDescriptor, s, k, last, trace, fetch, llm)
  {
  }

  /** A step whose model call raises aborts the run. */
  lemma RunAborts(n: Node, s: State, k: nat, last: Option<Chunk>, trace: seq<Node>,
                  fetch: string -> string, llm: Nodes.Model)
    requires RunInv(n, s) && IsStep(n)
    ensures Execute(n, s, fetch, llm, k).Failed? ==>
      RunFrom(n, s, k, last, trace, fetch, llm) == Aborted
  {
  }

  /** After a step that succeeds, the run goes on from the successor in the merged state,
      which keeps the invariant. */
  lemma RunContinues(n: Node, s: State, k: nat, last: Option<Chunk>, trace: seq<Node>,
                     fetch: string -> string, llm: Nodes.Model)
    requires RunInv(n, s) && IsStep(n)
    ensures var r := Execute(n, s, fetch, llm, k);
      r.Updated? ==>
        var s' := Merge(s, r.update);
        RunInv(Next(n, Full(s')), s') &&
        RunFrom(n, s, k, last, trace, fetch, llm) ==
          RunFrom(Next(n, Full(s')), s', k + r.calls, Some(Chunk(n, r.update)), trace + [n], fetch, llm)
  {
    StepKeepsInv(n, s, fetch, llm, k);
  }

  /** Every step keeps the run invariant: only an insight round changes the counter and
      the insights, both by one, and the decision step sends the run to an insight round
      only below the cap. */
  lemma StepKeepsInv(n: Node, s: State, fetch: string -> string, llm: Nodes.Model, k: nat)
    requires RunInv(n, s) && IsStep(n)
    ensures var r := Execute(n, s, fetch, llm, k);
      r.Updated? ==> RunInv(Next(n, Full(Merge(s, r.update))), Merge(s, r.update))
  {
    match n
    case StepDescriptor => Nodes.DescriptorUpdate(s, fetch, llm, k);
    case StepDecision => Nodes.DecisionUpdate(s, llm, k);
    case StepThinkMore => Nodes.ThinkMoreUpdate(s, llm, k);
    case StepFinalize => Nodes.FinalizeUpdate(s, llm, k);
  }

  /** Every step either completes a round or keeps the counter and moves down in `Rank`:
      the measure under which a run terminates. */
  lemma StepProgresses(n: Node, s: State, fetch: string -> string, llm: Nodes.Model, k: nat)
    requires RunInv(n, s) && IsStep(n)
    ensures var r := Execute(n, s, fetch, llm, k);
      r.Updated? ==>
        var s' := Merge(s, r.update);
        s'.interacoes == s.interacoes + 1 ||
        (s'.interacoes == s.interacoes && Rank(Next(n, Full(s'))) < Rank(n))
  {
    var r := Execute(n, s, fetch, llm, k);
    if n == StepThinkMore {
      RoundDone(s, fetch, llm, k);
    } else if r.Updated? {
      RoundsKept(n, s, fetch, llm, k);
      NextDescends(n, Full(Merge(s, r.update)));
    }
  }

  /** Every edge except the one out of the insight round goes down in `Rank`. */
  lemma NextDescends(n: Node, state: Fields)
    requires IsStep(n) && n != StepThinkMore
    ensures Rank(Next(n, state)) < Rank(n)
  {
  }

  /** The steps other than the insight round leave the counter alone. */
  lemma RoundsKept(n: Node, s: State, fetch: string -> string, llm: Nodes.Model, k: nat)
    requires IsStep(n) && n != StepThinkMore
    ensures var r := Execute(n, s, fetch, llm, k);
      r.Updated? ==> Merge(s, r.update).interacoes == s.interacoes
  {
    match n
    case StepDescriptor => Nodes.DescriptorUpdate(s, fetch, llm, k);
    case StepDecision => Nodes.DecisionUpdate(s, llm, k);
    case StepFinalize => Nodes.FinalizeUpdate(s, llm, k);
  }

  /** The insight round adds one to the counter. */
  lemma RoundDone(s: State, fetch: string -> string, llm: Nodes.Model, k: nat)
    ensures var r := Execute(StepThinkMore, s, fetch, llm, k);
      r.Updated? ==> Merge(s, r.update).interacoes == s.interacoes + 1
  {
    Nodes.ThinkMoreUpdate(s, llm, k);
  }

  /** The record `process_url` returns. */
  datatype EvalResult = EvalResult(
    descriptor: string, thoughts: seq<string>, marketTrends: string, rating: int,
    finalAnswer: string)

  /** `process_url` either returns a record or lets a model exception propagate. */
  datatype Outcome = Returned(result: EvalResult) | Raised

  /** The fixed record of backend.py:106-113. */
  const FallbackResult := EvalResult("Erro no processamento", [], "", 0,
                                     "N\U{E3}o foi poss\U{ED}vel processar a URL fornecida.")

  /** The mapping of backend.py:97-105 from an update to the record, with its defaults. */
  function FromUpdate(u: Fields): (r: EvalResult)
    ensures u.descricao.Some? ==> r.descriptor == u.descricao.value
    ensures u.pensamentos.Some? ==> r.thoughts == u.pensamentos.value
    ensures u.tendenciasMercado.Some? ==> r.marketTrends == u.tendenciasMercado.value
    ensures u.avaliacao.Some? ==> r.rating == u.avaliacao.value
    ensures u.respostaFinal.Some? ==> r.finalAnswer == u.respostaFinal.value
    ensures u.descricao.None? ==> r.descriptor == ""
    ensures u.pensamentos.None? ==> r.thoughts == []
    ensures u.tendenciasMercado.None? ==> r.marketTrends == ""
    ensures u.avaliacao.None? ==> r.rating == 0
    ensures u.respostaFinal.None? ==> r.finalAnswer == ""
  {
    EvalResult(u.descricao.GetOr(""), u.pensamentos.GetOr([]), u.tendenciasMercado.GetOr(""),
               u.avaliacao.GetOr(0), u.respostaFinal.GetOr(""))
  }

  /** backend.py:97-113: a last chunk from the final step is mapped, anything else gives
      the fallback record. */
  function ResultOf(last: Option<Chunk>): (r: EvalResult)
    ensures last.None? || last.value.node != StepFinalize ==> r == FallbackResult
    ensures last.Some? && last.value.node == StepFinalize ==> r == FromUpdate(last.value.update)
  {
    if last.Some? && last.value.node == StepFinalize then FromUpdate(last.value.update)
    else FallbackResult
  }

  /** What `process_url(url)` does, as a function of the fetch and the model. */
  function Evaluate(url: string, fetch: string -> string, llm: Nodes.Model): Outcome {
    match RunFrom(Start, Initial(url), 0, None, [], fetch, llm)
    case Aborted => Raised
    case Completed(_, last, _, _) => Returned(ResultOf(last))
  }

  /** `process_url` (backend.py:62-113): build the graph, run it from the initial state
      keeping the last chunk streamed, and map that chunk to the result record.  A model
      exception leaves the loop and the function. */
  method ProcessUrl(url: string, fetch: string -> string, llm: Nodes.Model) returns (out: Outcome)
    ensures out == Evaluate(url, fetch, llm)
  {
    var graph := BuildGraph();
    var state := Initial(url);
    var node := Start;
    var k: nat := 0;
    var finalResult: Option<Chunk> := None;
    ghost var trace: seq<Node> := [];
    while node != End
      invariant RunInv(node, state)
      invariant RunFrom(node, state, k, finalResult, trace, fetch, llm) ==
                RunFrom(Start, Initial(url), 0, None, [], fetch, llm)
      decreases 3 - state.interacoes, Rank(node)
    {
      if node == Start {
        RunEnters(state, k, finalResult, trace, fetch, llm);
        node := Successor(graph, node, Full(state)).GetOr(End);
      } else {
        RunAborts(node, state, k, finalResult, trace, fetch, llm);
        RunContinues(node, state, k, finalResult, trace, fetch, llm);
        StepProgresses(node, state, fetch, llm, k);
        var r := Execute(node, state, fetch, llm, k);
        if r.Failed? {
          return Raised;
        }
        state := Merge(state, r.update);
        k := k + r.calls;
        finalResult := Some(Chunk(node, r.update));
        trace := trace + [node];
        node := Successor(graph, node, Full(state)).GetOr(End);
      }
    }
    out := Returned(ResultOf(finalResult));
  }

  /** The nodes run from a decision with `i` rounds done: an insight round and another
      decision until the cap, then the final step. */
  function Rounds(i: int): seq<Node>
    decreases 3 - i
  {
    if i >= 3 then [StepDecision, StepFinalize]
    else [StepDecision, StepThinkMore] + Rounds(i + 1)
  }

  /** Merging an update that holds every key gives the update's own values. */
  lemma MergeAllKeys(s: State, u: Fields)
    requires Nodes.HasAllKeys(u)
    ensures FromUpdate(u) == EvalResult(Merge(s, u).descricao, Merge(s, u).pensamentos,
                                        Merge(s, u).tendenciasMercado, Merge(s, u).avaliacao,
                                        Merge(s, u).respostaFinal)
  {
  }

  /** What a run that reaches a decision in state `s`, with `k` calls made and the nodes
      `trace` run, looks like if it completes: it runs the remaining rounds and the final
      step, stops at exactly 3 rounds and 3 insights, makes three calls per remaining
      round and one for the final answer, keeps the URL, the description and the insights
      so far, and ends on a chunk of the final step that maps to the final state. */
  predicate CompletesRounds(s: State, k: nat, trace: seq<Node>, run: Run) {
    run.Completed? ==>
      run.trace == trace + Rounds(s.interacoes) &&
      run.final.interacoes == 3 && |run.final.pensamentos| == 3 &&
      |s.pensamentos| <= 3 && run.final.pensamentos[..|s.pensamentos|] == s.pensamentos &&
      run.final.descricao == s.descricao && run.final.url == s.url &&
      run.calls == k + 3 * (3 - s.interacoes) + 1 &&
      run.last.Some? && run.last.value.node == StepFinalize &&
      ResultOf(run.last) == EvalResult(run.final.descricao, run.final.pensamentos,
                                       run.final.tendenciasMercado, run.final.avaliacao,
                                       run.final.respostaFinal)
  }

  /** At the cap, the decision calls no model and sends the run to the final step. */
  lemma CapDecides(s: State, k: nat, last: Option<Chunk>, trace: seq<Node>,
                   fetch: string -> string, llm: Nodes.Model)
    requires RunInv(StepDecision, s) && s.interacoes >= 3
    ensures RunFrom(StepDecision, s, k, last, trace, fetch, llm) ==
            RunFrom(StepFinalize, s.(enough := true), k,
                    Some(Chunk(StepDecision, NoFields.(enough := Some(true)))),
                    trace + [StepDecision], fetch, llm)
  {
    var u := NoFields.(enough := Some(true));
    assert Execute(StepDecision, s, fetch, llm, k) == Nodes.Updated(u, 0);
    assert Merge(s, u) == s.(enough := true);
    assert Next(StepDecision, Full(s.(enough := true))) == StepFinalize;
  }

  /** The final step ends the run with one more model call, keeping the insights, and its
      update is what `process_url` reports. */
  lemma FinalizeEnds(s: State, k: nat, last: Option<Chunk>, trace: seq<Node>,
                     fetch: string -> string, llm: Nodes.Model)
    requires RunInv(StepFinalize, s)
    ensures var run := RunFrom(StepFinalize, s, k, last, trace, fetch, llm);
      run.Completed? ==>
        run.trace == trace + [StepFinalize] &&
        run.final.interacoes == s.interacoes && run.final.pensamentos == s.pensamentos &&
        run.final.descricao == s.descricao && run.final.url == s.url &&
        run.calls == k + 1 &&
        run.last.Some? && run.last.value.node == StepFinalize &&
        ResultOf(run.last) == EvalResult(run.final.descricao, run.final.pensamentos,
                                         run.final.tendenciasMercado, run.final.avaliacao,
                                         run.final.respostaFinal)
  {
    RunAborts(StepFinalize, s, k, last, trace, fetch, llm);
    RunContinues(StepFinalize, s, k, last, trace, fetch, llm);
    Nodes.FinalizeUpdate(s, llm, k);
    var f := Nodes.Finalize(s, llm, k);
    if f.Updated? {
      MergeAllKeys(s, f.update);
    }
  }

  /** At the cap, the decision sends the run to the final step, which ends it. */
  lemma AtCap(s: State, k: nat, last: Option<Chunk>, trace: seq<Node>,
              fetch: string -> string, llm: Nodes.Model)
    requires RunInv(StepDecision, s) && s.interacoes >= 3
    ensures CompletesRounds(s, k, trace, RunFrom(StepDecision, s, k, last, trace, fetch, llm))
  {
    CapDecides(s, k, last, trace, fetch, llm);
    var s1 := s.(enough := true);
    var trace1 := trace + [StepDecision];
    FinalizeEnds(s1, k, Some(Chunk(StepDecision, NoFields.(enough := Some(true)))), trace1,
                 fetch, llm);
    assert trace1 + [StepFinalize] == trace + Rounds(s.interacoes);
    assert s.pensamentos[..|s.pensamentos|] == s.pensamentos;
  }

  /** Below the cap, the decision asks the model once and, unless that raises, sends the
      run to an insight round with `enough` false. */
  lemma DecidesToThink(s: State, k: nat, last: Option<Chunk>, trace: seq<Node>,
                       fetch: string -> string, llm: Nodes.Model)
    requires RunInv(StepDecision, s) && s.interacoes < 3
    ensures var d := Nodes.Decision(s, llm, k);
      (d.Failed? ==> RunFrom(StepDecision, s, k, last, trace, fetch, llm) == Aborted) &&
      (d.Updated? ==>
        RunFrom(StepDecision, s, k, last, trace, fetch, llm) ==
        RunFrom(StepThinkMore, s.(enough := false), k + 1, Some(Chunk(StepDecision, d.update)),
                trace + [StepDecision], fetch, llm))
  {
    Nodes.DecisionUpdate(s, llm, k);
    var d := Nodes.Decision(s, llm, k);
    if d.Updated? {
      assert Merge(s, d.update) == s.(enough := false);
      assert Next(StepDecision, Full(s.(enough := false))) == StepThinkMore;
    }
  }

  /** An insight round that does not raise goes back to the decision, one round further,
      after two model calls, keeping url, description and the earlier insights. */
  lemma ThinksToDecide(s: State, k: nat, last: Option<Chunk>, trace: seq<Node>,
                       fetch: string -> string, llm: Nodes.Model)
    requires RunInv(StepThinkMore, s)
    ensures var t := Nodes.ThinkMore(s, llm, k);
      (t.Failed? ==> RunFrom(StepThinkMore, s, k, last, trace, fetch, llm) == Aborted) &&
      (t.Updated? ==>
        var s2 := Merge(s, t.update);
        RunInv(StepDecision, s2) &&
        s2.interacoes == s.interacoes + 1 && s2.url == s.url && s2.descricao == s.descricao &&
        s2.pensamentos[..|s.pensamentos|] == s.pensamentos &&
        RunFrom(StepThinkMore, s, k, last, trace, fetch, llm) ==
        RunFrom(StepDecision, s2, k + 2, Some(Chunk(StepThinkMore, t.update)),
                trace + [StepThinkMore], fetch, llm))
  {
    Nodes.ThinkMoreUpdate(s, llm, k);
    var t := Nodes.ThinkMore(s, llm, k);
    if t.Updated? {
      assert Next(StepThinkMore, Full(Merge(s, t.update))) == StepDecision;
    }
  }

  /** Below the cap, a decision and an insight round bring the run back to a decision,
      one round further, with three more model calls; a raising call aborts it. */
  lemma OneRound(s: State, k: nat, last: Option<Chunk>, trace: seq<Node>,
                 fetch: string -> string, llm: Nodes.Model)
    requires RunInv(StepDecision, s) && s.interacoes < 3
    ensures var run := RunFrom(StepDecision, s, k, last, trace, fetch, llm);
      run == Aborted ||
      exists s2: State, u: Fields ::
        RunInv(StepDecision, s2) &&
        s2.interacoes == s.interacoes + 1 && s2.url == s.url && s2.descricao == s.descricao &&
        s2.pensamentos[..|s.pensamentos|] == s.pensamentos &&
        run == RunFrom(StepDecision, s2, k + 3, Some(Chunk(StepThinkMore, u)),
                       trace + [StepDecision, StepThinkMore], fetch, llm)
  {
    DecidesToThink(s, k, last, trace, fetch, llm);
    var d := Nodes.Decision(s, llm, k);
    if d.Updated? {
      var s1 := s.(enough := false);
      var trace1 := trace + [StepDecision];
      ThinksToDecide(s1, k + 1, Some(Chunk(StepDecision, d.update)), trace1, fetch, llm);
      var t := Nodes.ThinkMore(s1, llm, k + 1);
      if t.Updated? {
        var s2 := Merge(s1, t.update);
        assert trace1 + [StepThinkMore] == trace + [StepDecision, StepThinkMore];
        assert k + 1 + 2 == k + 3;
        assert RunInv(StepDecision, s2);
      }
    }
  }

  /** One round followed by the remaining ones is the remaining rounds from one round
      earlier. */
  lemma RoundsCompose(s: State, s2: State, k: nat, trace: seq<Node>, run: Run)
    requires s.interacoes < 3 && |s.pensamentos| == s.interacoes
    requires s2.interacoes == s.interacoes + 1 && |s2.pensamentos| == s2.interacoes
    requires s2.url == s.url && s2.descricao == s.descricao
    requires s2.pensamentos[..|s.pensamentos|] == s.pensamentos
    requires CompletesRounds(s2, k + 3, trace + [StepDecision, StepThinkMore], run)
    ensures CompletesRounds(s, k, trace, run)
  {
    assert trace + [StepDecision, StepThinkMore] + Rounds(s2.interacoes) ==
           trace + Rounds(s.interacoes);
    if run.Completed? {
      assert run.final.pensamentos[..|s2.pensamentos|][..|s.pensamentos|] ==
             run.final.pensamentos[..|s.pensamentos|];
    }
  }

  /** A run that reaches a decision completes the remaining rounds as `CompletesRounds`
      describes, if it completes at all. */
  lemma {:induction false} FromDecision(s: State, k: nat, last: Option<Chunk>, trace: seq<Node>,
                                        fetch: string -> string, llm: Nodes.Model)
    requires RunInv(StepDecision, s)
    ensures CompletesRounds(s, k, trace, RunFrom(StepDecision, s, k, last, trace, fetch, llm))
    decreases 3 - s.interacoes
  {
    if s.interacoes >= 3 {
      AtCap(s, k, last, trace, fetch, llm);
    } else {
      OneRound(s, k, last, trace, fetch, llm);
      var run := RunFrom(StepDecision, s, k, last, trace, fetch, llm);
      if run != Aborted {
        var s2: State, u: Fields :|
          RunInv(StepDecision, s2) &&
          s2.interacoes == s.interacoes + 1 && s2.url == s.url && s2.descricao == s.descricao &&
          s2.pensamentos[..|s.pensamentos|] == s.pensamentos &&
          run == RunFrom(StepDecision, s2, k + 3, Some(Chunk(StepThinkMore, u)),
                         trace + [StepDecision, StepThinkMore], fetch, llm);
        FromDecision(s2, k + 3, Some(Chunk(StepThinkMore, u)), trace + [StepDecision, StepThinkMore],
                     fetch, llm);
        RoundsCompose(s, s2, k, trace, run);
      }
    }
  }

  /** The descriptor step takes the run from the initial state to the first decision,
      with no round done and the URL kept; a fetch failure text becomes the description
      and costs no model call, any other page costs one. */
  lemma FirstDecision(url: string, fetch: string -> string, llm: Nodes.Model)
    ensures var s, d := Initial(url), Nodes.Descriptor(Initial(url), fetch, llm, 0);
      var run := RunFrom(Start, s, 0, None, [], fetch, llm);
      (d.Failed? ==> run == Aborted) &&
      (d.Updated? ==>
        var s1 := Merge(s, d.update);
        RunInv(StepDecision, s1) && s1.interacoes == 0 && s1.pensamentos == [] && s1.url == url &&
        (Nodes.IsFetchError(fetch(url)) ==> s1.descricao == fetch(url)) &&
        d.calls == (if Nodes.IsFetchError(fetch(url)) then 0 else 1) &&
        run == RunFrom(StepDecision, s1, d.calls, Some(Chunk(StepDescriptor, d.update)),
                       [StepDescriptor], fetch, llm))
  {
    var s := Initial(url);
    RunEnters(s, 0, None, [], fetch, llm);
    RunAborts(StepDescriptor, s, 0, None, [], fetch, llm);
    RunContinues(StepDescriptor, s, 0, None, [], fetch, llm);
    Nodes.DescriptorUpdate(s, fetch, llm, 0);
    assert [] + [StepDescriptor] == [StepDescriptor];
  }

  /** The nodes every completed run executes, in order. */
  const FullTrace := [StepDescriptor, StepDecision, StepThinkMore, StepDecision, StepThinkMore,
                      StepDecision, StepThinkMore, StepDecision, StepFinalize]

  /** A completed run executes the descriptor, then three insight rounds each after a
      decision, then a last decision and the final step; it ends with 3 rounds and 3
      insights, after 11 model calls, or 10 when the fetch failed; the description the
      descriptor step set survives to the result, so a fetch failure text is reported as
      the descriptor without short-circuiting the run; and the result is the final state
      mapped, never the fallback record. */
  lemma CompletedRun(url: string, fetch: string -> string, llm: Nodes.Model)
    ensures var run := RunFrom(Start, Initial(url), 0, None, [], fetch, llm);
      run.Completed? ==>
        run.trace == FullTrace &&
        run.final.interacoes == 3 && |run.final.pensamentos| == 3 &&
        run.calls == (if Nodes.IsFetchError(fetch(url)) then 10 else 11) &&
        (Nodes.IsFetchError(fetch(url)) ==> run.final.descricao == fetch(url)) &&
        run.last.Some? && run.last.value.node == StepFinalize &&
        ResultOf(run.last) == EvalResult(run.final.descricao, run.final.pensamentos,
                                         run.final.tendenciasMercado, run.final.avaliacao,
                                         run.final.respostaFinal)
  {
    FirstDecision(url, fetch, llm);
    var s, d := Initial(url), Nodes.Descriptor(Initial(url), fetch, llm, 0);
    if d.Updated? {
      var s1 := Merge(s, d.update);
      FromDecision(s1, d.calls, Some(Chunk(StepDescriptor, d.update)), [StepDescriptor], fetch, llm);
      assert [StepDescriptor] + Rounds(0) == FullTrace;
    }
  }

  /** If every model call raises, so does `process_url`, whether or not the fetch failed:
      the decision step asks the model before any cap is reached. */
  lemma ModelAlwaysRaises(url: string, fetch: string -> string, llm: Nodes.Model)
    requires forall k: nat, p: Nodes.Prompt :: llm(k, p) == Nodes.Raised
    ensures Evaluate(url, fetch, llm) == Raised
  {
    var s := Initial(url);
    assert RunFrom(Start, s, 0, None, [], fetch, llm) == RunFrom(StepDescriptor, s, 0, None, [], fetch, llm);
    RunAborts(StepDescriptor, s, 0, None, [], fetch, llm);
    RunContinues(StepDescriptor, s, 0, None, [], fetch, llm);
    Nodes.DescriptorUpdate(s, fetch, llm, 0);
    var d := Nodes.Descriptor(s, fetch, llm, 0);
    if d.Updated? {
      var s1 := Merge(s, d.update);
      assert Next(StepDescriptor, Full(s1)) == StepDecision;
      Nodes.DecisionUpdate(s1, llm, d.calls);
      RunAborts(StepDecision, s1, d.calls, Some(Chunk(StepDescriptor, d.update)), [StepDescriptor], fetch, llm);
    }
  }

  /** The fallback record is never what `process_url` returns: a run that completes always
      ends on the final step's chunk. */
  lemma NeverFallback(url: string, fetch: string -> string, llm: Nodes.Model)
    ensures Evaluate(url, fetch, llm).Returned? ==>
      var run := RunFrom(Start, Initial(url), 0, None, [], fetch, llm);
      run.last.Some? && run.last.value.node == StepFinalize &&
      Evaluate(url, fetch, llm).result == FromUpdate(run.last.value.update)
  {
    CompletedRun(url, fetch, llm);
  }

  /** The descriptor step and the final step each run once, first and last, and an
      insight round only ever runs between two decisions. */
  lemma TraceShape()
    ensures forall i :: 0 <= i < |FullTrace| ==>
      (FullTrace[i] == StepDescriptor <==> i == 0) &&
      (FullTrace[i] == StepFinalize <==> i == |FullTrace| - 1)
    ensures forall i :: 0 <= i < |FullTrace| && FullTrace[i] == StepThinkMore ==>
      0 < i < |FullTrace| - 1 && FullTrace[i - 1] == StepDecision && FullTrace[i + 1] == StepDecision
  {
    forall i | 0 <= i < |FullTrace|
      ensures (FullTrace[i] == StepDescriptor <==> i == 0) &&
              (FullTrace[i] == StepFinalize <==> i == |FullTrace| - 1)
      ensures FullTrace[i] == StepThinkMore ==>
        0 < i < |FullTrace| - 1 && FullTrace[i - 1] == StepDecision && FullTrace[i + 1] == StepDecision
    {
      if i == 0 {} else if i == 1 {} else if i == 2 {} else if i == 3 {} else if i == 4 {}
      else if i == 5 {} else if i == 6 {} else if i == 7 {} else {}
    }
  }

  /** The same shape, stated of the trace of any completed run. */
  lemma CompletedTraceShape(url: string, fetch: string -> string, llm: Nodes.Model)
    requires RunFrom(Start, Initial(url), 0, None, [], fetch, llm).Completed?
    ensures var tr := RunFrom(Start, Initial(url), 0, None, [], fetch, llm).trace;
      (forall i :: 0 <= i < |tr| ==>
        (tr[i] == StepDescriptor <==> i == 0) && (tr[i] == StepFinalize <==> i == |tr| - 1)) &&
      (forall i :: 0 <= i < |tr| && tr[i] == StepThinkMore ==>
        0 < i < |tr| - 1 && tr[i - 1] == StepDecision && tr[i + 1] == StepDecision)
  {
    CompletedRun(url, fetch, llm);
    TraceShape();
  }
}
