/** The routing rules (routes.py): functions of the state dictionary, in which any key may
    be missing, and of a node name. */
module Routes {
  import opened Wrappers
  import opened Text
  import opened Constants
  import Nodes

  /** `decision_router` (routes.py:11-28): finish exactly when `enough` is present and
      true; a missing key reads as False. */
  function DecisionRouter(state: Fields): (r: string)
    ensures r == "step_finalize" || r == "step_think_more"
    ensures r == "step_finalize" <==> state.enough == Some(true)
  {
    if state.enough.GetOr(false) then "step_finalize" else "step_think_more"
  }

  /** `error_router` (routes.py:31-48): finish exactly when the description starts with a
      fetch failure prefix; a missing description reads as "". */
  function ErrorRouter(state: Fields): (r: string)
    ensures r == "step_finalize" || r == "step_decision"
    ensures r == "step_finalize" <==>
      state.descricao.Some? &&
      (StartsWith(state.descricao.value, "Error") || StartsWith(state.descricao.value, "Exception"))
  {
    if Nodes.IsFetchError(state.descricao.GetOr("")) then "step_finalize" else "step_decision"
  }

  /** The keys `validate_state` requires. */
  datatype Required = UrlKey | DescricaoKey

  const RequiredFields: seq<Required> := [UrlKey, DescricaoKey]

  /** `state.get(field)` for a required key. */
  function Get(state: Fields, key: Required): Option<string> {
    match key
    case UrlKey => state.url
    case DescricaoKey => state.descricao
  }

  /** The key is in the dictionary and its value is truthy, that is, a non-empty string. */
  predicate Filled(value: Option<string>) {
    value.Some? && value.value != []
  }

  /** `validate_state` (routes.py:51-67): the loop over the required keys, returning False
      at the first one that is missing or empty. */
  method ValidateState(state: Fields) returns (ok: bool)
    ensures ok <==> state.url.Some? && state.url.value != [] &&
                    state.descricao.Some? && state.descricao.value != []
  {
    var i := 0;
    while i < |RequiredFields|
      invariant 0 <= i <= |RequiredFields|
      invariant forall j :: 0 <= j < i ==> Filled(Get(state, RequiredFields[j]))
    {
      if !Filled(Get(state, RequiredFields[i])) {
        return false;
      }
      i := i + 1;
    }
    assert Filled(Get(state, RequiredFields[0])) && Filled(Get(state, RequiredFields[1]));
    return true;
  }

  /** The names `get_next_node` can return. */
  predicate IsNodeName(name: string) {
    name == "step_decision" || name == "step_think_more" || name == "step_finalize" || name == "END"
  }

  /** `get_next_node` (routes.py:70-89): the successor table of the four steps, with
      "step_finalize" for any other name. */
  function GetNextNode(current: string, state: Fields): (r: string)
    ensures IsNodeName(r)
    ensures current == "step_descriptor" || current == "step_think_more" ==> r == "step_decision"
    ensures current == "step_decision" ==> r == DecisionRouter(state)
    ensures current == "step_finalize" ==> r == "END"
  {
    var mapping := map["step_descriptor" := "step_decision",
                       "step_decision" := DecisionRouter(state),
                       "step_think_more" := "step_decision",
                       "step_finalize" := "END"];
    if current in mapping then mapping[current] else "step_finalize"
  }

  /** Any name outside the table, the empty one and "END" included, leads to the final
      step. */
  lemma UnknownNodeFinalizes(current: string, state: Fields)
    requires current != "step_descriptor" && current != "step_decision"
    requires current != "step_think_more" && current != "step_finalize"
    ensures GetNextNode(current, state) == "step_finalize"
  {
  }

  /** Were `error_router` wired after the descriptor, it would finish exactly when the new
      description looks like a failure text: always after a failed fetch, and otherwise
      only when the model's stripped description itself starts with "Error" or
      "Exception". */
  lemma ErrorRouterAfterDescriptor(s: State, fetch: string -> string, llm: Nodes.Model, k: nat)
    requires Nodes.Descriptor(s, fetch, llm, k).Updated?
    ensures var u := Nodes.Descriptor(s, fetch, llm, k).update;
      ErrorRouter(u) == "step_finalize" <==> Nodes.IsFetchError(Merge(s, u).descricao)
    ensures Nodes.IsFetchError(fetch(s.url)) ==>
      ErrorRouter(Nodes.Descriptor(s, fetch, llm, k).update) == "step_finalize"
  {
  }
}
