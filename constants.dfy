/** The evaluation record threaded through the pipeline (constants.py), in two forms:
    `State`, the record with every key present, which is what the graph holds between
    steps; and `Fields`, a dictionary of the same keys any of which may be missing, which
    is what a step returns (a partial update) and what the routing functions accept. */
module Constants {
  import opened Wrappers

  datatype State = State(
    url: string,
    descricao: string,           // one-line description of the site
    tendenciasMercado: string,   // latest market-trend summary
    avaliacao: int,              // the rating, 0 while unset
    respostaFinal: string,       // the final narrative assessment
    enough: bool,                // "enough information gathered"
    interacoes: int,             // insight rounds completed
    pensamentos: seq<string>)    // the accumulated insights

  datatype Fields = Fields(
    url: Option<string>,
    descricao: Option<string>,
    tendenciasMercado: Option<string>,
    avaliacao: Option<int>,
    respostaFinal: Option<string>,
    enough: Option<bool>,
    interacoes: Option<int>,
    pensamentos: Option<seq<string>>)

  /** The empty dictionary `{}`. */
  const NoFields := Fields(None, None, None, None, None, None, None, None)

  /** The dictionary holding every key of `s`, which is what `{**state, ...}` starts from. */
  function Full(s: State): (f: Fields)
    ensures f.url == Some(s.url) && f.descricao == Some(s.descricao)
    ensures f.tendenciasMercado == Some(s.tendenciasMercado) && f.avaliacao == Some(s.avaliacao)
    ensures f.respostaFinal == Some(s.respostaFinal) && f.enough == Some(s.enough)
    ensures f.interacoes == Some(s.interacoes) && f.pensamentos == Some(s.pensamentos)
  {
    Fields(Some(s.url), Some(s.descricao), Some(s.tendenciasMercado), Some(s.avaliacao),
           Some(s.respostaFinal), Some(s.enough), Some(s.interacoes), Some(s.pensamentos))
  }

  /** How the graph applies a step's partial update: every key present in `u` replaces the
      current value, every absent key keeps it. */
  function Merge(s: State, u: Fields): State {
    State(u.url.GetOr(s.url), u.descricao.GetOr(s.descricao),
          u.tendenciasMercado.GetOr(s.tendenciasMercado), u.avaliacao.GetOr(s.avaliacao),
          u.respostaFinal.GetOr(s.respostaFinal), u.enough.GetOr(s.enough),
          u.interacoes.GetOr(s.interacoes), u.pensamentos.GetOr(s.pensamentos))
  }

  /** Merging the empty update changes nothing, merging a full dictionary replaces the
      whole state, and merging the same update twice is merging it once. */
  lemma MergeLaws(s: State, t: State, u: Fields)
    ensures Merge(s, NoFields) == s
    ensures Merge(s, Full(t)) == t
    ensures Merge(Merge(s, u), u) == Merge(s, u)
  {
  }
}
