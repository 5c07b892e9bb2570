# Business-idea evaluation pipeline, modelled in Dafny

The system rates a business idea from its website. It fetches the page, asks a language
model for a one-line description, and then alternates two steps:

- a decision ("is there enough information?");
- an insight round, which adds one insight and rewrites the market-trend summary.

After that a final step asks for an assessment and pulls a numeric rating out of the reply.
All of this is one record, `State` (constants.py). Each step returns a partial update that
is merged over the state. The steps are wired into a graph with one conditional edge and
one loop-back edge. `process_url` runs the graph and maps the last streamed update to the
result record. The web form normalises the URL and labels the rating with a band.

The model is organised as follows:

- `wrappers.dfy` (`Wrappers`): `Option`.
- `text.dfy` (`Text`): the Python string operations the steps use. These are `startswith`,
  `in`, `lower`, `strip`, `join` and `int` of a digit run, plus the character classes
  `\s`, `\d` and `\w`.
- `constants.dfy` (`Constants`): `State`, and `Fields`, the same keys as a dictionary in
  which any key may be missing. `Merge` is how an update is applied.
- `rating.dfy` (`RatingExtractor`): the rating extractor of the final step.
  - Each of the seven patterns is a chain of literals, `\s*` and one `(\d+)`. They are
    searched by a greedy matcher.
  - The fallback is `re.findall(r'\b([1-9]|10)\b')`.
  - `ExtractRating` is the loop as the source writes it, proved equal to the function
    `Rating`.
- `backtracking.dfy` (`Backtracking`): a reference semantics for the patterns, the
  backtracking search of a regular-expression engine. A repetition first takes the longest
  run and then gives back one character at a time. The greedy matcher is proved to find
  the same group on every text for all seven patterns. The reason: in each pattern every
  `\s*` is followed by a non-space, and every `(\d+)` ends the pattern or is followed
  by something a digit cannot match: a literal that starts with a non-digit, possibly
  after a `\s*`. So giving back a character never lets the rest match.
- `rating_examples.dfy` (`RatingExamples`): the ratings of six concrete final texts.
- `nodes.dfy` (`Nodes`): the four steps, as functions from the state to a `StepResult`.
  - The language model is an oracle `llm(k, prompt)`, where `k` is the index of the call
    within the run. Its reply is a text or a raised exception.
  - The fetch is a function from URL to text.
  - A lemma per step states what the merged state becomes.
- `routes.dfy` (`Routes`): the routing functions. `validate_state` keeps its loop.
- `backend.dfy` (`Backend`): the driver.
  - `build_graph` is a builder class filled call by call. The resulting edge set is proved
    equal to an explicit transition `Next`.
  - `RunFrom` is the run as a function. It terminates under the measure
    (`3 - interacoes`, position in the round).
  - `ProcessUrl` is the streaming loop, proved equal to `RunFrom`.
  - Lemmas describe every completed run.
- `frontend.dfy` (`Frontend`): the empty-input check, the `https://` prefixing and the
  rating band.

Where the code and its evident intent disagree, the model follows the code:

- **The decision never ends the loop.** The prompt asks the model for True or False
  (nodes.py:86-90), evidently to stop as soon as it answers affirmatively. The code tests
  `"True" in decision_text.lower()`, and a lower-cased text never contains a capital `T`
  (`Nodes.NeverAffirmative`). So `enough` is false after every model decision, and the
  loop only ends at the cap of 3 rounds. Every completed run does exactly three insight
  rounds (`Backend.CompletedRun`).
- **The entry point does not catch model exceptions.** The fallback branch of
  backend.py:106-113 evidently means a failed run to yield the fallback record.
  `process_url` has no `try`, so the exception leaves it. The model returns the outcome
  `Raised` (`Backend.ModelAlwaysRaises`). The fallback record is in fact
  never returned (`Backend.NeverFallback`).
- **The fallback record's text is Portuguese.** Its descriptor is "Erro no processamento"
  and its final answer "Não foi possível processar a URL fornecida.".
- **The rating is not limited to 1..10.** A labelled match is converted with `int` and not
  clamped, so "Nota: 42" gives 42 (`RatingExamples.NotaFortyTwo`).
- **The scheme check in the form is case-sensitive.** "HTTP://x" becomes
  "https://HTTP://x".
- **A fetch failure text does not short-circuit the run.** It becomes the description and
  flows through the remaining steps. `error_router` exists but is wired nowhere.

## Model

| member | source | states |
|---|---|---|
| Text.Strip | nodes.py:152 | the result is the slice of the input left after removing the whitespace at both ends; everything removed is whitespace, and the result starts and ends with a non-space |
| Text.StripIdempotent | nodes.py:152 | stripping an already stripped text changes nothing |
| Text.Lower | nodes.py:90 | same length, each character lower-cased |
| Text.LowerChar | nodes.py:90 | the result is never an ASCII capital, Ç or Ã; an ASCII capital becomes its lower-case letter (code plus 32), Ç becomes ç, Ã becomes ã, and every other character is kept |
| Text.StartsWithIff | nodes.py:55-56 | `StartsWith` (`startswith`) holds exactly when the prefix fits and agrees with the text character by character |
| Text.ContainsIff | nodes.py:90 | `Contains` (`in` on strings) holds exactly when the needle occurs as a slice at some position |
| Text.FirstCharAbsent | nodes.py:90 | a needle whose first character does not occur in the text is not a substring of it |
| Text.Join | nodes.py:84 | joining no strings gives "", joining one gives that string |
| Text.JoinAppend | nodes.py:84 | appending an element to a non-empty list appends the separator and the element to the joined text |
| Text.DigitsValue | nodes.py:169 | `int()` of a non-empty digit run, the only kind the extractor passes it: a value of 0 only when every digit is 0 (the empty run, on which Python's `int` raises, never reaches it; the model gives it 0 by convention) |
| Text.DigitsValueExamples | nodes.py:169 | "42" converts to 42 and "007" to 7: no clamping, leading zeros ignored |
| Constants.Full | nodes.py:66 | `{**state}`: the dictionary holding every field of the state with its value |
| Constants.MergeLaws | nodes.py:57-66 | `Merge`, the graph applying a returned dictionary to the state: the empty update changes nothing, a full dictionary (`{**state, ...}`) replaces the whole state, and applying an update twice is applying it once |
| Nodes.Snippet | nodes.py:59 | at most 1000 characters, a prefix of the content, the whole content when it is short and exactly 1000 characters otherwise |
| Nodes.InsightsText | nodes.py:84 | "Nenhum" when there are no insights, the only insight when there is one |
| Nodes.InsightsTextAppend | nodes.py:84 | a further insight is shown after the earlier ones, separated by ", " |
| Nodes.DescriptorUpdate | nodes.py:55-66 | `Descriptor` (its fetch-failure test is `IsFetchError`): a fetch failure text becomes the description verbatim, with no model call and an update holding only that key; otherwise the step fails exactly when the model raises, makes one call, and its update replaces the description by the stripped reply and keeps every other field |
| Nodes.DescriptorErrorNeedsNoModel | nodes.py:55-57 | on a fetch failure the step's result does not depend on the model or the call counter, and the merged state differs from the old one only in the description |
| Nodes.DescriptorSeesOnlySnippet | nodes.py:59-64 | two pages that agree on their first 1000 characters give the same descriptor step |
| Nodes.NeverAffirmative | nodes.py:88-90 | "True" is never a substring of a lower-cased text |
| Nodes.DecisionUpdate | nodes.py:79-91 | `Decision`: from round 3 on, `enough` becomes True with no model call in an update of that one key; below it, the step fails exactly when the model raises, makes one call, and sets `enough` to False whatever the reply, keeping every other field |
| Nodes.DecisionCapNeedsNoModel | nodes.py:79-80 | at the cap the step does not depend on the model, and merging sets only `enough` to True |
| Nodes.ThinkMoreUpdate | nodes.py:104-130 | `ThinkMore`: fails exactly when one of its two model calls raises; otherwise two calls, counter up by one, the old insights kept as a prefix with the stripped first reply appended, the stripped second reply as the trend summary, url, description, rating, final answer and `enough` unchanged |
| Nodes.ThinkMoreOverwritesTrends | nodes.py:122-130 | the previous trend summary has no effect on the state after an insight round |
| Nodes.ThinkMoreKeepsCount | nodes.py:104-115 | an insight round keeps the number of insights equal to the round counter |
| Nodes.FinalizeUpdate | nodes.py:151-180 | `Finalize`: fails exactly when the model raises; otherwise one call, the stripped reply becomes the final answer, the rating is extracted from that stripped text, and every other field is kept |
| Nodes.FinalizeRatesItsAnswer | nodes.py:152-180 | after the final step the stored rating is the extractor's rating of the stored final answer, it is non-negative, and the final answer has no surrounding whitespace |
| RatingExtractor.WordAtIff | nodes.py:167 | `WordAt`: a literal occurs at a position exactly when it fits and each of its characters matches the text there, ignoring case |
| RatingExtractor.MatchFrom | nodes.py:156-162 | a match captures only digits, a non-empty run when the pattern has `(\d+)`, and keeps the group unchanged when it has none |
| RatingExtractor.LabelMatch | nodes.py:156-159 | a label pattern `label\s*(\d+)` matches at a position exactly when the label is there, ignoring case, and digits follow it after any whitespace; the group is the whole digit run |
| RatingExtractor.MatchFromShift | nodes.py:167 | a match looks only forward: text in front of a position does not change whether, or what, a pattern matches there |
| RatingExtractor.SearchFrom | nodes.py:167 | `re.search`: the result is the leftmost position at which the pattern matches, and None exactly when it matches nowhere |
| RatingExtractor.Group | nodes.py:167-169 | the group of a found match is a digit run |
| Backtracking.GreedyIsBacktracking | nodes.py:155-167 | on every greedy-safe pattern, at every position, the greedy matcher gives exactly the result of the backtracking reference matcher `Backtrack` |
| Backtracking.PatternIsGreedySafe | nodes.py:155-163 | each of the seven patterns is greedy-safe |
| Backtracking.GroupIsSearch | nodes.py:155-169 | for each of the seven patterns and every text, `Group` is the group of the leftmost match that the backtracking search `Search` finds, as `re.search(...).group(1)` |
| RatingExtractor.TokenAt | nodes.py:174 | a standalone token is 1..10 and made of digits |
| RatingExtractor.TokenAtSound | nodes.py:174-176 | a token found at a position is the text 1..9 or 10 with no word character on either side, and its value is `int()` of that text |
| RatingExtractor.TokenAtComplete | nodes.py:174-176 | conversely, the text 1..9 or 10 with no word character on either side is found as a token at its start, with that value and end |
| RatingExtractor.Standalone | nodes.py:174 | every value `findall` returns lies in 1..10 |
| RatingExtractor.StandaloneLast | nodes.py:174-176 | the scan finds no token exactly when no position holds one, and its last value is the token at the rightmost such position |
| RatingExtractor.ScanPatterns | nodes.py:165-170 | the loop over the patterns leaves `int()` of the group of the first pattern that matches, or 0 |
| RatingExtractor.ExtractRating | nodes.py:165-176 | the imperative extractor computes `Rating` |
| RatingExtractor.SkipUnmatched | nodes.py:166-170 | patterns that do not match do not affect which pattern decides |
| RatingExtractor.FirstPatternWins | nodes.py:155-176 | `Rating` through `Labelled` and `FirstLabelled`: when pattern j matches and no earlier pattern matches anywhere, the loop stops there whatever later patterns find; its value is the rating, and a captured 0 sends the text to the fallback without trying the later patterns |
| RatingExtractor.Fallback | nodes.py:172-176 | when the labelled patterns give nothing or 0, the rating is the rightmost standalone token 1..10, and 0 when there is none |
| RatingExtractor.LastIsRightmost | nodes.py:174-176 | `LastStandalone`, the last element of `findall` (0 when it is empty), is the rightmost standalone token |
| RatingExtractor.RatingCases | nodes.py:165-176 | the rating is the labelled value (not clamped) when that is non-zero, and otherwise at most 10 |
| RatingExtractor.AbsentChar | nodes.py:155-167 | a pattern with a label character that the text lacks in either case is found nowhere |
| RatingExtractor.GroupLower | nodes.py:167 | a pattern finds the same group in the lower-cased text as in the text (IGNORECASE) |
| RatingExtractor.RatingIgnoresCase | nodes.py:165-176 | lower-casing the final text does not change its rating |
| RatingExamples.AvaliacaoSeven | nodes.py:155-170 | "Avaliação: 7" is rated 7, by the first pattern |
| RatingExamples.FractionEight | nodes.py:155-170 | "8/10" is rated 8, by `(\d+)/10` |
| RatingExamples.NotaFortyTwo | nodes.py:155-170 | "Nota: 42" is rated 42: a labelled value is not clamped |
| RatingExamples.MentionsNine | nodes.py:162-170 | "mentions 3 things, final score 9 out of 10" is rated 9: the leftmost "out of 10" decides, not the earlier standalone 3 |
| RatingExamples.TwoAndFiveFive | nodes.py:172-176 | "values are 2 and 5" matches no pattern and is rated 5, its last standalone number |
| RatingExamples.NoDigitsZero | nodes.py:164-176 | "no numbers here" matches no pattern, has no standalone number, and is rated 0 |
| Routes.DecisionRouter | routes.py:26-28 | "step_finalize" exactly when `enough` is present and true, "step_think_more" otherwise, a missing key included |
| Routes.ErrorRouter | routes.py:44-48 | "step_finalize" exactly when the description is present and starts with "Error" or "Exception", "step_decision" otherwise, a missing description included |
| Routes.ValidateState | routes.py:61-67 | true exactly when both url and description are present and non-empty |
| Routes.GetNextNode | routes.py:82-89 | always one of the four names; descriptor and insight round lead to the decision, the final step to "END", the decision to what `decision_router` says |
| Routes.UnknownNodeFinalizes | routes.py:88-89 | any name outside the table leads to "step_finalize" |
| Routes.ErrorRouterAfterDescriptor | routes.py:44-48 | were `error_router` applied to the descriptor's update, it would finish exactly when the new description passes `IsFetchError`, and always after a failed fetch |
| Backend.GraphBuilder.constructor | backend.py:31 | the builder starts with no nodes and no edges |
| Backend.GraphBuilder.AddNode | backend.py:34-37 | appends one node, the edges unchanged |
| Backend.GraphBuilder.AddEdge | backend.py:40-57 | appends one plain edge, the rest unchanged |
| Backend.GraphBuilder.AddConditionalEdges | backend.py:44-51 | appends one routed edge, the rest unchanged |
| Backend.WiredAgreesWithNext | backend.py:40-57 | the built graph's successor (`Successor`) of every node in every state is the explicit transition `Next`, and nothing leaves the exit |
| Backend.BuildGraph | backend.py:18-60 | the builder calls yield the graph whose successors are `Next` everywhere, and every routed edge uses `decision_router` |
| Backend.NextAgreesWithGetNextNode | routes.py:82-87 | the wired transitions agree with `get_next_node` at the four steps |
| Backend.Initial | backend.py:78-87 | the given url, empty strings, rating 0, `enough` false, no rounds and no insights |
| Backend.StepKeepsInv | backend.py:85-86 | every step keeps the round counter in 0..3 and equal to the number of insights, and sends the run to an insight round only below the cap |
| Backend.StepProgresses | nodes.py:79-104 | every step either completes a round or keeps the counter and moves down in the round order: the run terminates |
| Backend.FromUpdate | backend.py:97-105 | each result field is the corresponding key of the update when that key is present, and its `.get` default ("", [], "", 0, "") when it is absent |
| Backend.ResultOf | backend.py:97-113 | with a last chunk from the final step the result is that chunk's update mapped; without one it is the fixed fallback record |
| Backend.ProcessUrl | backend.py:62-113 | the streaming loop returns what `Evaluate`, the run of the graph (`RunFrom`) from the initial state mapped to the result record, gives, or raises |
| Backend.FirstDecision | backend.py:40-41 | the descriptor step takes the run to the first decision with no rounds done, the url kept, a fetch failure text as description, and 0 or 1 model calls |
| Backend.CapDecides | nodes.py:79-80 | at the cap the decision makes no model call, sets `enough` to True and sends the run to the final step |
| Backend.FinalizeEnds | backend.py:57 | a completed run from the final step ends right after it: the trace gains only that step, after one model call; rounds, insights, url and description are kept; the last chunk is the final step's, and the result is the final state's fields |
| Backend.AtCap | nodes.py:79-80 | at the cap the decision sends the run to the final step, which ends it |
| Backend.DecidesToThink | nodes.py:79-91 | below the cap a decision either raises or sends the run to an insight round with `enough` false, after one model call |
| Backend.ThinksToDecide | nodes.py:104-130 | an insight round either raises or brings the run back to a decision one round further, after two model calls, keeping url, description and the earlier insights |
| Backend.OneRound | backend.py:44-54 | below the cap a decision and an insight round bring the run back to a decision one round further, after three model calls, keeping url, description and earlier insights |
| Backend.FromDecision | backend.py:44-57 | a run from a decision that completes does the remaining rounds, ends with 3 rounds and 3 insights, keeps the earlier insights, and its last chunk is the final step's |
| Backend.CompletedRun | backend.py:62-105 | every completed run executes descriptor, three decision/insight rounds, a decision and the final step; it ends with 3 rounds and 3 insights after 11 model calls (10 on a fetch failure, whose text survives as the description); the result is the final state's fields |
| Backend.ModelAlwaysRaises | backend.py:93-94 | when every model call raises, `process_url` raises, fetch failure or not |
| Backend.NeverFallback | backend.py:97-113 | a returned result is always the final step's update mapped, never the fallback record |
| Backend.TraceShape | backend.py:40-57 | in `FullTrace` the descriptor runs only first, the final step only last, and every insight round sits between two decisions |
| Backend.CompletedTraceShape | backend.py:40-57 | in the trace of every completed run the descriptor runs only first, the final step only last, and every insight round sits between two decisions |
| Frontend.Submit | frontend.py:108-113 | a warning exactly for the empty input; otherwise a URL that starts with "http://" or "https://", equal to the input or to "https://" before it, and the input itself when it already has a scheme |
| Frontend.SubmitIdempotent | frontend.py:112-113 | normalising a normalised URL changes nothing |
| Frontend.UpperCaseSchemeIsPrefixed | frontend.py:112-113 | "HTTP://x" is not recognised and gets "https://" in front |
| Frontend.BandOf | frontend.py:183-191 | Excelente exactly from 8 up, Bom exactly for 6..7, Regular exactly for 4..5, Ruim exactly below 4 |
| Frontend.BandMonotone | frontend.py:183-191 | a higher rating never gets a lower band |
| Frontend.BandEnds | frontend.py:183-191 | 0 and negative ratings are Ruim, ratings above 10 are Excelente |

## Left out

- The body of `fetch_website_content` (nodes.py:23-42) is not modelled. It is an HTTP request, HTML text extraction and `lru_cache`. The fetch is a function parameter, so repeated fetches of one URL agree, as the cache makes them.
- The language model (`ChatGroq`, `llm.invoke`) is a remote, nondeterministic call. It is an oracle parameter indexed by call number and prompt. The fixed wording of the prompts is not modelled, only what each prompt contains.
- The graph engine (`StateGraph`, `compile`, `stream`) is replaced by the explicit transition `Next` and the loop of `ProcessUrl`. Of the engine only two things are kept: an update is merged over the state, and the last chunk is `{node: update}`.
- Concurrency, recursion limits and checkpointing of the engine are not modelled.
- The form's rendering, the simulated progress bar, the buttons and reruns are user interface. So are the `try`/`except` around the call (frontend.py:212-214) and the display of the result.
- `load_dotenv` and the `__main__` demonstration blocks are configuration and I/O.
- Text.Strip: strips only ASCII whitespace, whereas Python's `str.strip()` also strips other Unicode spaces.
- Text.Lower: lower-cases only ASCII capitals and 'Ç', 'Ã', whereas Python's `str.lower()` covers all of Unicode, including characters whose lower case is longer.
- RatingExtractor.TokenAt: treats only ASCII letters, digits and `_` as word characters for `\b`. Python also treats letters such as 'ç' as word characters, so "ç5" has no boundary before the 5 in Python but has one in the model.
- RatingExtractor.MatchFrom: `\s` and `\d` are ASCII only; Python's Unicode `\d` also accepts other decimal digits, which `int()` then converts.
- RatingExtractor.WordAt: case folding under `re.IGNORECASE` covers only ASCII letters and Ç, Ã. Python also folds other letters, e.g. 'ſ' matches 's' and 'İ', 'ı' match 'i', so "Ratıng: 7" is labelled in Python and not in the model.
- Text.DigitsValue: unbounded. Python 3.11 and later raise `ValueError` from `int()` on a digit run longer than 4300 digits; the model converts any length.
- Backend.ProcessUrl: a raised model exception is the outcome `Raised`, not control flow, and the exception's type and message are not modelled.
