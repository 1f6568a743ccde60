# TradingCore pipeline, modelled in Dafny

TradingCore sends a daily e-mail digest of market news to a list of
subscribers. Each subscriber names some B3 tickers. The run has two phases:

- **Phase 1** (`processar_todos_tickers`). The tickers of all subscribers
  are collected into one set and walked in sorted order. For each ticker the
  news is fetched once and every article is scored once by a language model.
  The top relevant analyses are cached. One executive summary per ticker is
  then compiled from the cached analyses.
- **Phase 2** (`processar_usuario` and the loop of `main`). Each subscriber
  gets the cached analyses and summaries of their own tickers in one e-mail.
  The run counts successes, errors and the news delivered.

This project models that core:

- the ticker-field parser `parsear_tickers`;
- the settings and their check `validar_configuracoes`;
- the scoring-reply decoder, the per-article loop of `analisar_com_gpt`, the
  top-N filter `filtrar_top_relevantes` and the grouping of
  `gerar_resumo_executivo`;
- both phases, and the guards and tally of `main`.

It then proves properties of the model.

The external services are modelled as oracles:

- the news search;
- the scoring call;
- the summary-compaction call;
- the rendering and sending of an e-mail.

They are the constant function fields of the class `Oracles.Services`, which
also keeps a `log` of every call made. Each one is therefore a deterministic
table given as input. The log is what lets the run's promises be stated
directly:

- each unique ticker is searched exactly once;
- Phase 2 makes only send calls;
- the cache keys are exactly the ticker set;
- successes plus errors equal the number of subscribers.

Files and modules:

| file | module | what it holds |
|---|---|---|
| records.dfy | Records | JSON values as Python sees them (`Value`, `Truthy`), articles, analyses, subscribers, `Option`/`Result` |
| strings.dfy | Strings | the `str` builtins used: `strip`, ASCII `upper`, `split(',')`, `join`, `startswith`, `in`, lexicographic order |
| oracles.dfy | Oracles | the class `Services` (the oracles and the call log) and counting of news searches in a log |
| utils.dfy | Utils | `parsear_tickers` |
| config.dfy | Config | environment loading of the settings, the integer defaults, `validar_configuracoes` |
| analyzer.dfy | Analyzer | the fence stripper, `analisar_com_gpt`, `filtrar_top_relevantes`, `gerar_resumo_executivo` |
| pipeline.dfy | Pipeline | the unique-ticker set, the sorted walk, `processar_todos_tickers` |
| subscribers.dfy | Subscribers | `processar_usuario`, the tally and guards of `main`, the whole run |

Each loop that updates state is a method proved against a recursive
specification function. Examples:

- `Analyzer.AnalyseWithGpt` is proved against `Analyses` and `ScoringCalls`.
- `Pipeline.FillCache` is proved against `CacheOver` and `FetchPhaseCalls`.
- `Subscribers.Distribute` is proved against `Tally(Outcomes(..))` and
  `Phase2Calls`.

The listed properties are lemmas about those functions. The top-N filter
is pure code, so it is a function: a stable insertion sort on the magnitude
of `sentimento`, followed by Python's slice `[:top_n]`.

Choices where the code decides:

- `extrair_tickers_unicos` is imported at main.py:9 from src/utils.py, but
  that file does not define it. `Pipeline.UniqueTickers` assumes it is the
  union of `parsear_tickers` over every subscriber's `Ticker 1` field.
- The summaries loop at main.py:82-86 walks `cache_analises` in insertion
  order. That is the sorted order of the first loop, so the model walks the
  same sorted order.
- `cache_resumos` gets a key for every ticker whose cached slot is
  non-empty. Its value is `""` when no summary line survives. So its key set
  is exactly those tickers, not merely a subset.
- A subscriber's e-mail field that pandas reads as NaN is `None` in the
  model. It is truthy, and `'@' in` then raises. The exception reaches the
  `except` at main.py:234-237, so the subscriber counts as an error
  (`Threw`). A missing field is `""` and returns `(False, 0)`.
- `Delivery.Crashed` means that `gerar_email_html` raised. On the ticker
  path that is caught at main.py:163-165 and gives `(False, n)`. On the
  no-ticker path (main.py:130-131) it is outside any `try`, so it reaches
  main's `except` and counts as an error. `enviar_email` itself never
  raises (src/email_sender.py:416-418): `Refused` is its `False`.
- A relevant analysis whose `sentimento` is `None`, a text or a container
  makes `abs` raise inside the sort. That is the path by which the `except`
  at main.py:70-73 is reached, and it leaves the slot `[]`.

## Model

| member | source | states |
|---|---|---|
| Utils.ParseTickers | src/utils.py:31-32 | an absent (`None`, NaN) or empty field parses to no tickers |
| Utils.ParseTickersShape | src/utils.py:34-35 | every parsed ticker is non-empty, upper-case and has no surrounding whitespace; there are at most `count(',') + 1` of them |
| Utils.ParseTickersKeepsOrder | src/utils.py:34-35 | the result is an in-order subsequence of the stripped, upper-cased fields; every non-empty field appears in it, and as often as it is written (duplicates kept, only empty fields dropped) |
| Utils.NonEmptyMultiset | src/utils.py:35 | dropping the empty entries keeps every other entry with its multiplicity |
| Utils.NonEmptyKeepsEvery | src/utils.py:35 | the filter keeps every non-empty token |
| Utils.NonEmptyIsSubsequence | src/utils.py:35 | the filter keeps the tokens' order |
| Utils.NonEmptyOfBlanks | src/utils.py:35 | only empty tokens leave nothing |
| Utils.ParseTickersDocExample | src/utils.py:26-27 | `"ABEV3, PETR4, VALE3"` parses to `["ABEV3", "PETR4", "VALE3"]` |
| Utils.ParseTickersNormalizes | src/utils.py:34 | `"ABEV3, petr4 ,VALE3"` parses to `["ABEV3", "PETR4", "VALE3"]`: stripped and upper-cased |
| Utils.ParseTickersKeepsDuplicates | src/utils.py:34-35 | `"PETR4,PETR4"` gives two entries: duplicates are kept |
| Utils.ParseRepeated | src/utils.py:34-35 | any ticker written twice is returned twice |
| Utils.ParseTickersDropsBlanks | src/utils.py:35 | `" , ,"` parses to no tickers |
| Utils.ParseBlankThree | src/utils.py:35 | three blank fields give no tickers |
| Utils.ParseThreeTickers | src/utils.py:34-35 | three fields that normalise to non-empty tickers give exactly those three, in order |
| Utils.ParsePaddedThree | src/utils.py:34-35 | whitespace padding around three tickers is removed |
| Utils.ParseAroundField | src/utils.py:34-35 | a padded middle field is stripped and upper-cased between two plain tickers |
| Utils.ParseTwoTickers | src/utils.py:34-35 | two fields that normalise to non-empty tickers give exactly those two |
| Strings.StripSpec | src/utils.py:34 | `strip()` returns the infix left after removing whitespace on both sides |
| Strings.StripPadded | src/utils.py:34 | stripping whitespace padding returns the stripped text inside |
| Strings.Split | src/utils.py:34 | `split(',')` gives `count(',') + 1` fields, none containing a comma |
| Strings.SplitConcat | src/utils.py:34 | splitting at a separator splits the two sides independently |
| Strings.JoinSplit | src/utils.py:34 | joining the fields with the separator gives back the original text |
| Strings.UpperKeepsStripped | src/utils.py:34 | `upper()` of a stripped text is stripped and upper-case |
| Strings.LexTotal | main.py:42 | string order is total on distinct strings, as `sorted` needs |
| Strings.LexTransitive | main.py:42 | string order is transitive |
| Config.ParseDecimalText | src/config.py:22-31 | `int(str(n)) == n`, so a default written as text reads back as that number |
| Config.IntSettingDefault | src/config.py:22-31 | an unset integer setting takes its default |
| Config.Load | src/config.py:11-31 | loading fails exactly when an integer setting is malformed or `float()` rejects `OPENAI_TEMPERATURE` or `RELEVANCIA_MIN`; it carries the read news limit and top N |
| Config.BadFloatFailsLoad | src/config.py:13-30 | a malformed `OPENAI_TEMPERATURE` or `RELEVANCIA_MIN` makes loading fail |
| Config.LoadDefaults | src/config.py:22-31 | with the variables unset: SMTP port 465, 20 news per ticker, top 5, 24 hours |
| Config.MissingFromMembers | src/config.py:44 | a required name is missing exactly when its value is falsy |
| Config.MissingFromInOrder | src/config.py:44 | the missing names keep declaration order |
| Config.MissingSpec | src/config.py:36-44 | `missing` is exactly the falsy required names, in declaration order, and holds no other name |
| Config.RequiredNamesDistinct | src/config.py:36-42 | the five required names are distinct |
| Config.ValidateIff | src/config.py:44-50 | validation fails if and only if a required value is falsy |
| Config.MessageNamesMissing | src/config.py:46-50 | the error message contains every missing name |
| Config.OptionalSettingsNotChecked | src/config.py:36-42 | the model name, SMTP server and SMTP port never affect validation |
| Analyzer.StripFence | src/ai_analyzer.py:74-79 | the decoded text is stripped and no longer than the reply |
| Analyzer.FencedRoundTrip | src/ai_analyzer.py:74-79 | for stripped JSON text `j` without backticks, the fenced ```` ```json ```` block decodes to `j` |
| Analyzer.BareFencedRoundTrip | src/ai_analyzer.py:74-79 | a fence without the `json` tag also decodes to its stripped content |
| Analyzer.UnfencedIsStripped | src/ai_analyzer.py:74-79 | a reply that does not start with a fence is only stripped |
| Analyzer.FencedParts | src/ai_analyzer.py:75-79 | a fenced reply keeps the text up to the second fence, without the tag, stripped |
| Analyzer.Untagged | src/ai_analyzer.py:77-78 | the `json` tag is removed exactly when it is present |
| Analyzer.Outcome | src/ai_analyzer.py:38-85 | an article yields an analysis exactly when it has a body, the scoring call returns a reply and the de-fenced reply decodes; the analysis is the decoded relevance, summary and sentiment tagged with the title and the ticker |
| Analyzer.Analyses | src/ai_analyzer.py:25-89 | at most one analysis per article (none for no articles), each tagged with the ticker and one of the articles' titles |
| Analyzer.ScoringCalls | src/ai_analyzer.py:41-68 | at most one scoring call per article, each for the ticker with a non-empty body |
| Analyzer.AnalysesAppend | src/ai_analyzer.py:36-89 | articles are handled independently: a failing article does not stop or change the later ones |
| Analyzer.ScoringCallsAppend | src/ai_analyzer.py:36-68 | the scoring calls of two article lists are those of each, in order |
| Analyzer.AnalysesNeedCalls | src/ai_analyzer.py:36-85 | there are no more analyses than scoring calls |
| Analyzer.NoBodiesNoCalls | src/ai_analyzer.py:41-42 | articles without a body produce no scoring call and no analysis |
| Analyzer.AllScoredKeepsAll | src/ai_analyzer.py:36-85 | when every article has a body and every reply decodes, there is one analysis and one call per article |
| Analyzer.AnalyseWithGpt | src/ai_analyzer.py:14-92 | the loop returns `Analyses` of the articles and logs exactly `ScoringCalls` |
| Analyzer.SortKey | src/ai_analyzer.py:103 | `abs(x.get('sentimento', 0))` exists exactly for absent, boolean and numeric values; it is non-negative and the absolute value of a number |
| Analyzer.Relevant | src/ai_analyzer.py:100 | the relevant items are truthy-`relevante` items of the input, no more of them than the input |
| Analyzer.RelevantMembers | src/ai_analyzer.py:100 | an item is kept exactly when it is in the input and its `relevante` is truthy (missing counts as false) |
| Analyzer.PyPrefix | src/ai_analyzer.py:107 | `s[:n]` is a prefix of length `n` capped at `len(s)`, and `len(s) + n` (floored at 0) for negative `n` |
| Analyzer.SortPermutes | src/ai_analyzer.py:101-105 | the sort is a permutation |
| Analyzer.InsertPermutes | src/ai_analyzer.py:101-105 | one insertion step adds exactly the one item |
| Analyzer.SortDescending | src/ai_analyzer.py:101-105 | the sorted list has non-increasing magnitude |
| Analyzer.InsertDescending | src/ai_analyzer.py:101-105 | inserting into a non-increasing list keeps it non-increasing |
| Analyzer.SortStable | src/ai_analyzer.py:101-105 | items of equal magnitude keep their input order |
| Analyzer.InsertStable | src/ai_analyzer.py:101-105 | an inserted item goes ahead of the already sorted items of its magnitude, which came after it in the input |
| Analyzer.FilterRaisesIff | src/ai_analyzer.py:100-105 | the filter raises if and only if some relevant item has no sort key |
| Analyzer.FilterBounds | src/ai_analyzer.py:100-107 | at most `top_n` items and at most the number of relevant ones; exactly `top_n` when there are enough |
| Analyzer.FilterSelectsRelevant | src/ai_analyzer.py:100 | every selected item is relevant and comes from the input |
| Analyzer.FilterOrdered | src/ai_analyzer.py:101-107 | the result is a prefix of the stable sort of the relevant items, ordered by non-increasing magnitude |
| Analyzer.FilterLeftOutNoGreater | src/ai_analyzer.py:101-107 | an item left out has no greater magnitude than any selected item |
| Analyzer.FilterKeepsAllWhenRoom | src/ai_analyzer.py:97-107 | when `top_n` leaves room, the result is a permutation of all relevant items |
| Analyzer.Tickers | src/ai_analyzer.py:124-128 | the grouping keys are distinct |
| Analyzer.TickersMembers | src/ai_analyzer.py:124-128 | a ticker is a grouping key exactly when some analysis is about it |
| Analyzer.TickersInFirstSeenOrder | src/ai_analyzer.py:124-128 | the grouping keys are in first-seen order: each key occurs, and an earlier key first occurs before a later key first occurs |
| Analyzer.Group | src/ai_analyzer.py:124-129 | a ticker's group has at most one summary per analysis |
| Analyzer.GroupMembers | src/ai_analyzer.py:124-129 | a value is in a ticker's group exactly when some analysis about that ticker has it as its summary |
| Analyzer.GroupHasLines | src/ai_analyzer.py:124-142 | a ticker has prompt lines exactly when some analysis about it has a truthy summary |
| Analyzer.LinesSpec | src/ai_analyzer.py:140 | the prompt lines are exactly the truthy summaries of the group |
| Analyzer.SummaryText | src/ai_analyzer.py:162-169 | the stored text is the stripped reply, or "Resumo não disponível." when the call failed |
| Analyzer.SummariesOverSpec | src/ai_analyzer.py:138-169 | a walked ticker gets an entry exactly when its lines are non-empty, and the entry is its summary text |
| Analyzer.ExecutiveSummarySpec | src/ai_analyzer.py:121-169 | a ticker gets an entry exactly when some analysis about it has a truthy summary; the entry is the stripped reply or the fallback text |
| Analyzer.ExecutiveSummaryOfNothing | src/ai_analyzer.py:121-122 | no analyses give `{}` and no call |
| Analyzer.CompactionCallsShape | src/ai_analyzer.py:138-159 | no more compaction calls than walked tickers; each is for a walked ticker and has non-empty lines |
| Analyzer.CompactionCallsPerTicker | src/ai_analyzer.py:138-159 | over distinct tickers, no two compaction calls share a ticker, and each call carries its ticker's prompt lines |
| Analyzer.CompactionCallsOnce | src/ai_analyzer.py:124-159 | the whole grouping makes at most one compaction call per ticker, each with that ticker's prompt lines |
| Analyzer.GroupByTicker | src/ai_analyzer.py:124-129 | the loop builds the first-seen key order and each ticker's `Group` |
| Analyzer.CompactGroups | src/ai_analyzer.py:138-169 | the loop gives `SummariesOver` the keys and logs exactly its compaction calls |
| Analyzer.GenerateExecutiveSummary | src/ai_analyzer.py:110-171 | the function gives `ExecutiveSummary` and logs exactly `CompactionCalls` |
| Oracles.Services.FetchNews | src/news_fetcher.py:8-22 | the search returns the oracle's articles and logs one search |
| Oracles.Services.Score | src/ai_analyzer.py:68-71 | the scoring call returns the oracle's reply and logs one call |
| Oracles.Services.Compact | src/ai_analyzer.py:159-162 | the compaction call returns the oracle's reply and logs one call |
| Oracles.Services.Send | main.py:150-156 | one render-and-send attempt returns the oracle's result and logs one send |
| Oracles.FetchCountAppend | main.py:47 | searches in a log are counted additively |
| Oracles.OnlySendsFetchNothing | main.py:103-165 | a log of sends searches nothing |
| Pipeline.UniqueTickersMembers | main.py:198 | a ticker is in the unique set exactly when some subscriber's field parses to include it |
| Pipeline.TickerLists | main.py:198 | one parsed ticker list per subscriber |
| Pipeline.SortTickers | main.py:42 | `sorted(tickers_unicos)` is strictly increasing, with exactly the set's members |
| Pipeline.Smallest | main.py:42 | the selected ticker precedes every other member |
| Pipeline.StrictlySortedDistinct | main.py:42 | the sorted walk visits no ticker twice |
| Pipeline.CachedSpec | main.py:55-68 | a slot is relevant analyses of its own ticker, titled after its articles, largest magnitude first, at most `TOP_N_RELEVANTES` and at most one per article |
| Pipeline.NoNewsOnlyFetch | main.py:49-52 | without news the slot is `[]` and the only call is the search |
| Pipeline.NoAnalysesEmptySlot | main.py:57-60 | with no analysis the slot is `[]` and only the search and scoring calls are made |
| Pipeline.FilterErrorEmptySlot | main.py:63-73 | when the filter raises, the slot is `[]` |
| Pipeline.ProcessTicker | main.py:43-73 | one iteration yields the slot's value on every path and logs the search and scoring calls |
| Pipeline.FillCache | main.py:42-73 | the first loop writes exactly one slot per ticker, each with its value, and logs each ticker's calls in order |
| Pipeline.CacheOverSpec | main.py:42-73 | the cache's keys are exactly the walked tickers, each with its slot |
| Pipeline.SlotSummaryLookup | main.py:85-86 | `resumo.get(ticker, "")` is the summary of the ticker's own slot |
| Pipeline.CachedSummarySpec | main.py:82-86 | a non-empty slot's summary is the compacted reply (or `""` without lines), from at most one compaction call |
| Pipeline.SummariesOfSpec | main.py:82-86 | a summary exists exactly for the walked tickers with a non-empty slot |
| Pipeline.BuildSummaries | main.py:82-86 | the loop builds those summaries and logs exactly their compaction calls |
| Pipeline.ProcessAllTickers | main.py:20-100 | sorted walk; analysis keys equal the ticker set; summary keys equal the tickers with non-empty slots; the values and the whole call log are given |
| Pipeline.TickerFetchCount | main.py:47 | handling one ticker searches for it once and for no other ticker |
| Pipeline.FetchPhaseCount | main.py:42-47 | over distinct tickers, each ticker is searched once exactly when it is walked |
| Pipeline.SummaryCallsOnlyCompact | main.py:82-86 | building the summaries makes only compaction calls |
| Pipeline.Phase1FetchesOnce | main.py:42-86 | Phase 1 searches each unique ticker exactly once and no other |
| Subscribers.GatherAnalyses | main.py:137-140 | the loop returns the concatenation of `cache_analises.get(t, [])` over the tickers |
| Subscribers.CollectSummaries | main.py:143-146 | the loop collects the cached non-empty summaries of the tickers |
| Subscribers.GatherAppend | main.py:137-140 | the gathered list of two ticker lists is the concatenation of each, in order |
| Subscribers.GatherCons | main.py:139-140 | a ticker contributes its slot, or nothing when uncached |
| Subscribers.GatherMembers | main.py:137-140 | an analysis is delivered exactly when it is in the slot of one of the subscriber's cached tickers |
| Subscribers.CollectedSpec | main.py:143-146 | a summary is included exactly for a listed ticker with a non-empty cached summary, with that value |
| Subscribers.ProcessUser | main.py:103-165 | the outcome is `UserResult` (e-mail check, no-ticker path, send result and count) and the log gains exactly `UserCalls` |
| Subscribers.InvalidEmailNoSend | main.py:116-124 | an empty e-mail or one without '@' returns `(False, 0)` and sends nothing |
| Subscribers.NoTickersSucceeds | main.py:127-132 | no tickers: one empty e-mail, and `(True, 0)` whatever the send result, unless rendering raises |
| Subscribers.WithTickersSends | main.py:137-165 | one send with the gathered analyses and summaries; success is the send result; the count is the gathered length |
| Subscribers.UserCallsOnlySends | main.py:103-165 | a subscriber causes only send calls, exactly one when the e-mail is valid |
| Subscribers.UserResultLocal | main.py:137-146 | only the caches' entries for the subscriber's own tickers matter |
| Subscribers.GatherLocal | main.py:137-140 | gathering reads only the listed tickers' slots |
| Subscribers.CollectedLocal | main.py:143-146 | collecting reads only the listed tickers' summaries |
| Subscribers.Tally | main.py:217-237 | successes plus errors equal the number of outcomes |
| Subscribers.TallyAppend | main.py:223-237 | each counter of a concatenation is the sum of the counters of the parts |
| Subscribers.TallyCountsSuccesses | main.py:228-232 | `total_noticias` sums the counts of the successful subscribers only; `usuarios_sucesso` counts them |
| Subscribers.Phase2OnlySends | main.py:223-237 | Phase 2 makes only send calls, at most one per subscriber |
| Subscribers.OutcomesLength | main.py:223-237 | one outcome per subscriber |
| Subscribers.ServeUser | main.py:224-237 | one iteration extends the tally and the log by that subscriber's outcome and calls |
| Subscribers.Distribute | main.py:217-237 | the loop's counters are `Tally` of the outcomes, successes plus errors equal the subscriber count, and the log gains exactly the Phase 2 calls |
| Subscribers.Run | main.py:168-237 | invalid settings, no subscribers or no tickers stop with no call; otherwise the run completes, with Phase 1 and Phase 2 as above, and every unique ticker is searched exactly once |
| Subscribers.RunFetchesOnce | main.py:42-237 | a full run's log searches each unique ticker exactly once and no other |
| Subscribers.CompletedRunFetches | main.py:198-237 | the run adds one search per unique ticker to the searches already in the log |

## Left out

- The HTTP calls to OpenAI and `response.json()` (src/ai_analyzer.py:68-71,159-162) are foreign calls. They are the `scoring` and `compaction` oracles, and any failure is their `None`. The prompt texts are not modelled, because only the oracle reads them.
- `json.loads` (src/ai_analyzer.py:81) is the abstract partial decoder `loads`, a parameter. Setting `titulo` and `ticker` on a decoded non-object is not modelled separately: it is a decoding failure.
- The Event Registry search (src/news_fetcher.py) is the `news` oracle. The model passes it `MAX_NOTICIAS_POR_TICKER`, which is what `max_items=None` becomes (src/news_fetcher.py:21-22). What the library does with that limit is not modelled.
- Subscriber loading from Google Sheets (src/sheets_client.py) is not modelled; `Run` takes the subscribers as input. `row.to_dict()` failing is not modelled.
- E-mail rendering and SMTP delivery (src/email_sender.py) are the `delivery` oracle. The subject and the HTML body are not modelled.
- Prices and strategic context (src/price_fetcher.py, src/context_manager.py, src/scripts/update_all_contexts.py) are not called by the pipeline.
- `calcular_periodo_24h` and `formatar_timestamp` read the clock. `Run` takes the period's start and end as parameters.
- Floating point: the values of `OPENAI_TEMPERATURE` and `RELEVANCIA_MIN` are not used, and `float()` on their texts is the abstract parser `parseFloat`, a parameter of `Config.Load`; only whether it raises is modelled. The per-user average (main.py:248) is not modelled. `sentimento` is a `real` that is only compared and negated. NaN and infinities are not modelled.
- All console printing is left out.
- `pd.isna` (src/utils.py:31) counts as an absent field: `None`.
- Strings.Upper: maps only ASCII `a`–`z`, not Python's full Unicode case mapping.
- Config.ParseInt: accepts ASCII digits with an optional sign and surrounding whitespace. It omits `int()`'s underscores and Unicode digits.
- Analyzer.Title: a `title` key present with the value `None` is treated like a missing key, so it becomes "Sem título".
- Analyzer.Group: `analise.get('ticker', 'Unknown')` always sees the ticker, because every analysis is tagged at src/ai_analyzer.py:83. The `'Unknown'` default cannot happen and is not modelled.
- JSON values: `Value` keeps a list or object only as its number of entries, and `Number` does not tell `5` from `5.0`. The compaction prompt (`f"- {r}"`, src/ai_analyzer.py:140) shows a summary's full text, so the compaction oracle sees `resumo` only up to this abstraction. Two lists of the same size, or an int and an equal float, give it the same lines.
- Pipeline.BuildSummaries: the call to `gerar_resumo_executivo` at main.py:85 is outside any `try`, so an exception there would end the run. Every failure of the compaction call is caught inside (src/ai_analyzer.py:167-169). The model's summaries therefore never raise, and that path is not modelled.
- Oracles.Services: the oracles are deterministic tables fixed for the run. Concurrency and retries are not modelled.
- The subscriber's name (main.py:115) only appears in printing and in the e-mail, so it is not part of any outcome.
