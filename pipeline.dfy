/**
 * The two-phase run of main.py. Phase 1 handles every distinct ticker once
 * (news, scoring, top-N selection, executive summary) and fills two caches;
 * Phase 2 sends each subscriber the cached analyses of their tickers and
 * tallies the outcomes.
 */
module Pipeline {
  import opened Records
  import opened Strings
  import opened Oracles
  import opened Utils
  import opened Analyzer
  import opened Config

  // ---------------------------------------------------------------------------
  // The distinct tickers, in sorted order
  // ---------------------------------------------------------------------------

  /** The parsed ticker list of each subscriber, in sheet order. */
  function TickerLists(users: seq<User>): (r: seq<seq<string>>)
    ensures |r| == |users|
    ensures forall i :: 0 <= i < |users| ==> r[i] == ParseTickers(users[i].tickers)
  {
    seq(|users|, i requires 0 <= i < |users| => ParseTickers(users[i].tickers))
  }

  /** Every item of every list. */
  function Union(lists: seq<seq<string>>): set<string> {
    set i, j | 0 <= i < |lists| && 0 <= j < |lists[i]| :: lists[i][j]
  }

  lemma UnionMembers(lists: seq<seq<string>>, t: string)
    ensures t in Union(lists) <==> exists i :: 0 <= i < |lists| && t in lists[i]
  {
    if i :| 0 <= i < |lists| && t in lists[i] {
      var j :| 0 <= j < |lists[i]| && lists[i][j] == t;
    }
  }

  /**
   * `extrair_tickers_unicos(df_usuarios)`, which main.py imports but
   * src/utils.py does not define: taken to be the union of the tickers each
   * subscriber lists.
   */
  function UniqueTickers(users: seq<User>): set<string> {
    Union(TickerLists(users))
  }

  /** A ticker is in the union exactly when some subscriber lists it. */
  lemma UniqueTickersMembers(users: seq<User>, t: string)
    ensures t in UniqueTickers(users) <==> exists i :: 0 <= i < |users| && t in ParseTickers(users[i].tickers)
  {
    UnionMembers(TickerLists(users), t);
  }

  /** Each item is smaller than every one after it, so no item repeats. */
  predicate StrictlySorted(s: seq<string>) {
    forall i, j :: 0 <= i < j < |s| ==> LexLess(s[i], s[j])
  }

  lemma StrictlySortedDistinct(s: seq<string>)
    requires StrictlySorted(s)
    ensures forall i, j :: 0 <= i < j < |s| ==> s[i] != s[j]
  {
    forall i, j | 0 <= i < j < |s| ensures s[i] != s[j] {
      if s[i] == s[j] {
        LexIrreflexive(s[i]);
      }
    }
  }

  /** The smallest item of a non-empty set. */
  method Smallest(s: set<string>) returns (m: string)
    requires s != {}
    ensures m in s
    ensures forall y :: y in s && y != m ==> LexLess(m, y)
  {
    m :| m in s;
    var rest := s - {m};
    while rest != {}
      invariant rest <= s && m in s && m !in rest
      invariant forall y :: y in s && y !in rest && y != m ==> LexLess(m, y)
      decreases |rest|
    {
      var x :| x in rest;
      if LexLess(x, m) {
        forall y | y in s && y !in rest && y != m ensures LexLess(x, y) {
          LexTransitive(x, m, y);
        }
        m := x;
      } else if x != m {
        LexTotal(x, m);
      }
      rest := rest - {x};
    }
  }

  /** `sorted(tickers)`: the items of the set in increasing order. */
  method SortTickers(tickers: set<string>) returns (r: seq<string>)
    ensures StrictlySorted(r)
    ensures forall t :: t in r <==> t in tickers
    ensures |r| == |tickers|
  {
    r := [];
    var remaining := tickers;
    while remaining != {}
      invariant remaining <= tickers
      invariant StrictlySorted(r)
      invariant forall t :: t in r ==> t in tickers && t !in remaining
      invariant forall t :: t in tickers ==> t in r || t in remaining
      invariant forall i, b :: 0 <= i < |r| && b in remaining ==> LexLess(r[i], b)
      invariant |r| + |remaining| == |tickers|
      decreases |remaining|
    {
      var m := Smallest(remaining);
      r := r + [m];
      remaining := remaining - {m};
    }
  }

  // ---------------------------------------------------------------------------
  // Phase 1: one pass over the distinct tickers
  // ---------------------------------------------------------------------------

  /**
   * What Phase 1 needs besides the services: the search period (computed
   * from the clock by the caller), `MAX_NOTICIAS_POR_TICKER` (the default
   * maximum of the news search), `TOP_N_RELEVANTES` (the default cut of the
   * top-N filter) and the JSON decoder.
   */
  datatype Params = Params(
    start: string,
    end: string,
    maxNews: int,
    topN: int,
    loads: string -> Option<Scoring>)

  /** The articles the news service returns for `ticker`. */
  function News(svc: Services, p: Params, ticker: string): seq<Article> {
    svc.news(ticker, p.start, p.end, p.maxNews)
  }

  /**
   * The slot `cache_analises[ticker]`: [] when there is no news, when no
   * analysis survives or when the top-N filter raises; otherwise the top
   * relevant analyses.
   */
  function Cached(svc: Services, p: Params, ticker: string): seq<Analysis> {
    var articles := News(svc, p, ticker);
    if articles == [] then []
    else
      var analyses := Analyses(articles, ticker, svc.scoring, p.loads);
      if analyses == [] then []
      else
        match FilterTopRelevant(analyses, None, p.topN)
        case Raised => []
        case Ok(top) => top
  }

  /** The calls made while handling one ticker: one news search, then the scoring calls. */
  function TickerCalls(svc: Services, p: Params, ticker: string): seq<Call> {
    var articles := News(svc, p, ticker);
    [FetchCall(ticker, p.start, p.end, p.maxNews)]
      + (if articles == [] then [] else ScoringCalls(articles, ticker))
  }

  /**
   * A cached slot holds what the top-N filter selected from the ticker's own
   * analyses: relevant, about that ticker, titled after one of its articles,
   * largest magnitude first, at most `TOP_N_RELEVANTES` and at most one per
   * article.
   */
  lemma CachedSpec(svc: Services, p: Params, ticker: string)
    ensures var c := Cached(svc, p, ticker);
            var articles := News(svc, p, ticker);
            && |c| <= |articles|
            && (p.topN >= 0 ==> |c| <= p.topN)
            && Descending(c)
            && forall i :: 0 <= i < |c| ==>
                 Truthy(c[i].relevante) && c[i].ticker == ticker && c[i].titulo in Titles(articles)
  {
    var articles := News(svc, p, ticker);
    if articles != [] {
      var analyses := Analyses(articles, ticker, svc.scoring, p.loads);
      if analyses != [] && FilterTopRelevant(analyses, None, p.topN).Ok? {
        FilterBounds(analyses, None, p.topN);
        FilterSelectsRelevant(analyses, None, p.topN);
        FilterOrdered(analyses, None, p.topN);
        RelevantLength(analyses);
      }
    }
  }

  /** The relevance filter keeps at most every item. */
  lemma {:induction false} RelevantLength(s: seq<Analysis>)
    ensures |Relevant(s)| <= |s|
  {
    if s != [] {
      RelevantLength(s[1..]);
    }
  }

  /** Without news a ticker caches [] after a single call, the news search. */
  lemma NoNewsOnlyFetch(svc: Services, p: Params, ticker: string)
    requires News(svc, p, ticker) == []
    ensures Cached(svc, p, ticker) == []
    ensures TickerCalls(svc, p, ticker) == [FetchCall(ticker, p.start, p.end, p.maxNews)]
  {
  }

  /** With news but no surviving analysis the slot is [], and the filter is never reached. */
  lemma NoAnalysesEmptySlot(svc: Services, p: Params, ticker: string)
    requires News(svc, p, ticker) != []
    requires Analyses(News(svc, p, ticker), ticker, svc.scoring, p.loads) == []
    ensures Cached(svc, p, ticker) == []
    ensures TickerCalls(svc, p, ticker)
            == [FetchCall(ticker, p.start, p.end, p.maxNews)] + ScoringCalls(News(svc, p, ticker), ticker)
  {
  }

  /**
   * The exception path: a relevant analysis whose `sentimento` has no
   * absolute value makes the filter raise, and the slot is [].
   */
  lemma FilterErrorEmptySlot(svc: Services, p: Params, ticker: string, i: nat)
    requires News(svc, p, ticker) != []
    requires var a := Analyses(News(svc, p, ticker), ticker, svc.scoring, p.loads);
             i < |a| && Truthy(a[i].relevante) && !Numeric(a[i])
    ensures Cached(svc, p, ticker) == []
  {
    FilterRaisesIff(Analyses(News(svc, p, ticker), ticker, svc.scoring, p.loads), None, p.topN);
  }

  /**
   * One iteration of the first loop of `processar_todos_tickers`: every path
   * (no news, no analyses, the filter raising, success) yields the slot's
   * value.
   */
  method ProcessTicker(svc: Services, p: Params, ticker: string) returns (analyses: seq<Analysis>)
    modifies svc
    ensures analyses == Cached(svc, p, ticker)
    ensures svc.log == old(svc.log) + TickerCalls(svc, p, ticker)
  {
    var articles := svc.FetchNews(ticker, p.start, p.end, p.maxNews);
    if articles == [] {
      return [];
    }
    var scored := AnalyseWithGpt(svc, articles, ticker, p.loads);
    if scored == [] {
      return [];
    }
    var top := FilterTopRelevant(scored, None, p.topN);
    match top
    case Raised =>
      analyses := [];
    case Ok(selected) =>
      analyses := selected;
  }

  /** The calls of the first loop over `order`. */
  function FetchPhaseCalls(svc: Services, p: Params, order: seq<string>): seq<Call> {
    if order == [] then []
    else FetchPhaseCalls(svc, p, order[..|order| - 1]) + TickerCalls(svc, p, order[|order| - 1])
  }

  /**
   * `gerar_resumo_executivo(slot).get(ticker, "")`, through
   * `SlotSummaryLookup`: "" when no summary of the slot's analyses about
   * `ticker` is non-empty, otherwise the compacted text.
   */
  function SlotSummary(slot: seq<Analysis>, ticker: string,
                       compaction: (string, seq<Value>) -> Option<string>): string {
    var lines := Lines(Group(slot, ticker));
    if lines == [] then "" else SummaryText(compaction(ticker, lines))
  }

  /** The lookup into the executive summaries is `SlotSummary`. */
  lemma SlotSummaryLookup(slot: seq<Analysis>, ticker: string,
                          compaction: (string, seq<Value>) -> Option<string>)
    ensures var m := ExecutiveSummary(slot, compaction);
            (if ticker in m then m[ticker] else "") == SlotSummary(slot, ticker, compaction)
  {
    ExecutiveSummarySpec(slot, compaction, ticker);
    var lines := Lines(Group(slot, ticker));
    if lines != [] {
      LinesSpec(Group(slot, ticker));
      if ticker !in Tickers(slot) {
        GroupOfUnseen(slot, ticker);
      }
      TickersMembers(slot, ticker);
    }
  }

  /** What `cache_resumos[ticker]` is set to for a ticker with a non-empty slot. */
  function CachedSummary(svc: Services, p: Params, ticker: string): string {
    SlotSummary(Cached(svc, p, ticker), ticker, svc.compaction)
  }

  /** The slot of `ticker` in `cache`, [] when it has none. */
  function Slot(cache: map<string, seq<Analysis>>, ticker: string): seq<Analysis> {
    if ticker in cache then cache[ticker] else []
  }

  /** The calls `gerar_resumo_executivo` makes for a slot; none for an empty one. */
  function SlotCalls(slot: seq<Analysis>): seq<Call> {
    if slot == [] then [] else CompactionCalls(slot)
  }

  /** The calls of the second loop over `order`: one summary for each non-empty slot. */
  function SummaryCalls(order: seq<string>, cache: map<string, seq<Analysis>>): seq<Call> {
    if order == [] then []
    else SummaryCalls(order[..|order| - 1], cache) + SlotCalls(Slot(cache, order[|order| - 1]))
  }

  /** Appending a step to a log that already holds a prefix. */
  lemma LogStep(log: seq<Call>, base: seq<Call>, prior: seq<Call>, step: seq<Call>)
    requires log == base + prior
    ensures log + step == base + (prior + step)
  {
  }

  /** Analyses all about one ticker have that ticker alone. */
  lemma {:induction false} TickersOfOne(analyses: seq<Analysis>, ticker: string)
    requires analyses != []
    requires forall i :: 0 <= i < |analyses| ==> analyses[i].ticker == ticker
    ensures Tickers(analyses) == [ticker]
  {
    var init := analyses[..|analyses| - 1];
    if init != [] {
      TickersOfOne(init, ticker);
    }
  }

  /**
   * For a non-empty slot the executive summary is asked for at most once:
   * when the slot has no non-empty `resumo` there is no call and
   * `cache_resumos` gets "", otherwise one compaction call over those lines
   * and the stripped reply (or the fallback text).
   */
  lemma CachedSummarySpec(svc: Services, p: Params, ticker: string)
    requires Cached(svc, p, ticker) != []
    ensures var c := Cached(svc, p, ticker);
            var lines := Lines(Group(c, ticker));
            && CachedSummary(svc, p, ticker)
               == (if lines == [] then "" else SummaryText(svc.compaction(ticker, lines)))
            && CompactionCalls(c) == (if lines == [] then [] else [CompactCall(ticker, lines)])
  {
    var c := Cached(svc, p, ticker);
    CachedSpec(svc, p, ticker);
    TickersOfOne(c, ticker);
    assert [ticker][..0] == [];
    assert CompactionCalls(c) == CompactionCallsOver([ticker], c);
    ExecutiveSummarySpec(c, svc.compaction, ticker);
  }

  lemma SummaryCallsStep(order: seq<string>, t: string, cache: map<string, seq<Analysis>>)
    ensures SummaryCalls(order + [t], cache) == SummaryCalls(order, cache) + SlotCalls(Slot(cache, t))
  {
    assert (order + [t])[..|order + [t]| - 1] == order;
  }

  /** `cache_resumos` after the second loop has walked `order`. */
  function SummariesOf(order: seq<string>, cache: map<string, seq<Analysis>>,
                       compaction: (string, seq<Value>) -> Option<string>): map<string, string> {
    if order == [] then map[]
    else
      var t := order[|order| - 1];
      var m := SummariesOf(order[..|order| - 1], cache, compaction);
      if Slot(cache, t) == [] then m else m[t := SlotSummary(Slot(cache, t), t, compaction)]
  }

  /** A walked ticker gets an entry exactly when its slot is non-empty. */
  lemma {:induction false} SummariesOfSpec(order: seq<string>, cache: map<string, seq<Analysis>>,
                                           compaction: (string, seq<Value>) -> Option<string>, t: string)
    ensures t in SummariesOf(order, cache, compaction) <==> t in order && Slot(cache, t) != []
    ensures t in SummariesOf(order, cache, compaction)
            ==> SummariesOf(order, cache, compaction)[t] == SlotSummary(Slot(cache, t), t, compaction)
  {
    if order != [] {
      var init := order[..|order| - 1];
      SummariesOfSpec(init, cache, compaction, t);
      assert order == init + [order[|order| - 1]];
    }
  }

  lemma SummariesOfStep(order: seq<string>, t: string, cache: map<string, seq<Analysis>>,
                        compaction: (string, seq<Value>) -> Option<string>)
    ensures SummariesOf(order + [t], cache, compaction)
         == var m := SummariesOf(order, cache, compaction);
            if Slot(cache, t) == [] then m else m[t := SlotSummary(Slot(cache, t), t, compaction)]
  {
    assert (order + [t])[..|order + [t]| - 1] == order;
  }

  /**
   * One iteration of the second loop: `cache_resumos[ticker]` is set only for
   * a non-empty slot.
   */
  method SummariseSlot(svc: Services, ghost base: seq<Call>, ghost done: seq<string>, ticker: string,
                       cache: map<string, seq<Analysis>>, summaries: map<string, string>)
    returns (r: map<string, string>)
    requires ticker in cache
    requires summaries == SummariesOf(done, cache, svc.compaction)
    requires svc.log == base + SummaryCalls(done, cache)
    modifies svc
    ensures r == SummariesOf(done + [ticker], cache, svc.compaction)
    ensures svc.log == base + SummaryCalls(done + [ticker], cache)
  {
    var slot := cache[ticker];
    SummariesOfStep(done, ticker, cache, svc.compaction);
    SummaryCallsStep(done, ticker, cache);
    LogStep(svc.log, base, SummaryCalls(done, cache), SlotCalls(slot));
    r := summaries;
    if slot != [] {
      var m := GenerateExecutiveSummary(svc, slot);
      SlotSummaryLookup(slot, ticker, svc.compaction);
      r := r[ticker := if ticker in m then m[ticker] else ""];
    }
  }

  /**
   * The second loop of `processar_todos_tickers`, over `cache_analises` in
   * insertion order: one executive summary per non-empty slot.
   */
  method BuildSummaries(svc: Services, order: seq<string>, cache: map<string, seq<Analysis>>)
    returns (summaries: map<string, string>)
    requires forall t :: t in order ==> t in cache
    modifies svc
    ensures summaries == SummariesOf(order, cache, svc.compaction)
    ensures svc.log == old(svc.log) + SummaryCalls(order, cache)
  {
    summaries := map[];
    var j := 0;
    while j < |order|
      invariant 0 <= j <= |order|
      invariant summaries == SummariesOf(order[..j], cache, svc.compaction)
      invariant svc.log == old(svc.log) + SummaryCalls(order[..j], cache)
    {
      TakeOneMore(order, j);
      summaries := SummariseSlot(svc, old(svc.log), order[..j], order[j], cache, summaries);
      j := j + 1;
    }
    assert order[..j] == order;
  }

  /** `cache_analises` after the first loop has walked `order`. */
  function CacheOver(svc: Services, p: Params, order: seq<string>): map<string, seq<Analysis>> {
    if order == [] then map[]
    else
      var t := order[|order| - 1];
      CacheOver(svc, p, order[..|order| - 1])[t := Cached(svc, p, t)]
  }

  /** Every ticker walked has exactly one slot, holding its cached analyses. */
  lemma {:induction false} CacheOverSpec(svc: Services, p: Params, order: seq<string>, t: string)
    ensures t in CacheOver(svc, p, order) <==> t in order
    ensures t in CacheOver(svc, p, order) ==> CacheOver(svc, p, order)[t] == Cached(svc, p, t)
  {
    if order != [] {
      var init := order[..|order| - 1];
      CacheOverSpec(svc, p, init, t);
      assert order == init + [order[|order| - 1]];
    }
  }

  lemma FetchPhaseStep(svc: Services, p: Params, order: seq<string>, t: string)
    ensures FetchPhaseCalls(svc, p, order + [t]) == FetchPhaseCalls(svc, p, order) + TickerCalls(svc, p, t)
    ensures CacheOver(svc, p, order + [t]) == CacheOver(svc, p, order)[t := Cached(svc, p, t)]
  {
    assert (order + [t])[..|order + [t]| - 1] == order;
  }

  /**
   * The first loop of `processar_todos_tickers`: one slot per ticker of
   * `order`, each filled by `ProcessTicker`.
   */
  method FillCache(svc: Services, p: Params, order: seq<string>)
    returns (cache: map<string, seq<Analysis>>)
    modifies svc
    ensures cache == CacheOver(svc, p, order)
    ensures svc.log == old(svc.log) + FetchPhaseCalls(svc, p, order)
  {
    cache := map[];
    var i := 0;
    while i < |order|
      invariant 0 <= i <= |order|
      invariant cache == CacheOver(svc, p, order[..i])
      invariant svc.log == old(svc.log) + FetchPhaseCalls(svc, p, order[..i])
    {
      var t := order[i];
      ghost var done := order[..i];
      ghost var before := svc.log;
      TakeOneMore(order, i);
      FetchPhaseStep(svc, p, done, t);
      LogStep(before, old(svc.log), FetchPhaseCalls(svc, p, done), TickerCalls(svc, p, t));
      var analyses := ProcessTicker(svc, p, t);
      cache := cache[t := analyses];
      i := i + 1;
    }
    assert order[..i] == order;
  }

  /** Every call of Phase 1: the first loop's, then the second loop's. */
  function Phase1Calls(svc: Services, p: Params, order: seq<string>, cache: map<string, seq<Analysis>>): seq<Call> {
    FetchPhaseCalls(svc, p, order) + SummaryCalls(order, cache)
  }

  /**
   * `processar_todos_tickers(tickers_unicos, ...)`: the tickers in sorted
   * order (returned as `order`), a slot in `cache_analises` for each of
   * them, and a `cache_resumos` entry for each ticker with a non-empty slot.
   */
  method ProcessAllTickers(svc: Services, p: Params, tickers: set<string>)
    returns (analyses: map<string, seq<Analysis>>, summaries: map<string, string>, ghost order: seq<string>)
    modifies svc
    ensures StrictlySorted(order) && |order| == |tickers|
    ensures forall t :: t in order <==> t in tickers
    ensures forall t :: t in analyses <==> t in tickers
    ensures forall t :: t in analyses ==> analyses[t] == Cached(svc, p, t)
    ensures forall t :: t in summaries <==> t in tickers && Cached(svc, p, t) != []
    ensures forall t :: t in summaries ==> summaries[t] == CachedSummary(svc, p, t)
    ensures svc.log == old(svc.log) + Phase1Calls(svc, p, order, analyses)
  {
    var sorted := SortTickers(tickers);
    order := sorted;
    analyses := FillCache(svc, p, sorted);
    forall t ensures t in analyses <==> t in tickers
      ensures t in analyses ==> analyses[t] == Cached(svc, p, t) {
      CacheOverSpec(svc, p, sorted, t);
    }
    ghost var mid := svc.log;
    summaries := BuildSummaries(svc, sorted, analyses);
    LogStep(mid, old(svc.log), FetchPhaseCalls(svc, p, sorted), SummaryCalls(sorted, analyses));
    forall t ensures t in summaries <==> t in tickers && Cached(svc, p, t) != []
      ensures t in summaries ==> summaries[t] == CachedSummary(svc, p, t) {
      SummariesOfSpec(sorted, analyses, svc.compaction, t);
    }
  }

  /** One ticker's calls ask the news service about that ticker once and about no other. */
  lemma TickerFetchCount(svc: Services, p: Params, ticker: string, t: string)
    ensures FetchCount(TickerCalls(svc, p, ticker), t) == if t == ticker then 1 else 0
  {
    var articles := News(svc, p, ticker);
    var fetch := [FetchCall(ticker, p.start, p.end, p.maxNews)];
    var rest := if articles == [] then [] else ScoringCalls(articles, ticker);
    FetchFreeCount(rest, t);
    FetchCountAppend(fetch, rest, t);
    assert fetch[..0] == [];
  }

  /** Over distinct tickers, the first loop asks about each of them exactly once. */
  lemma {:induction false} FetchPhaseCount(svc: Services, p: Params, order: seq<string>, t: string)
    requires forall i, j :: 0 <= i < j < |order| ==> order[i] != order[j]
    ensures FetchCount(FetchPhaseCalls(svc, p, order), t) == if t in order then 1 else 0
  {
    if order != [] {
      var init := order[..|order| - 1];
      var last := order[|order| - 1];
      assert order == init + [last];
      FetchPhaseCount(svc, p, init, t);
      FetchCountAppend(FetchPhaseCalls(svc, p, init), TickerCalls(svc, p, last), t);
      TickerFetchCount(svc, p, last, t);
      if t == last {
        assert t !in init;
      }
    }
  }

  /** Only calls of the language model's compaction prompt. */
  predicate OnlyCompactions(log: seq<Call>) {
    forall i :: 0 <= i < |log| ==> log[i].CompactCall?
  }

  /** The second loop makes compaction calls and nothing else. */
  lemma {:induction false} SummaryCallsOnlyCompact(order: seq<string>, cache: map<string, seq<Analysis>>)
    ensures OnlyCompactions(SummaryCalls(order, cache))
  {
    if order != [] {
      var init := order[..|order| - 1];
      var slot := Slot(cache, order[|order| - 1]);
      SummaryCallsOnlyCompact(init, cache);
      SlotCallsOnlyCompact(slot);
      OnlyCompactionsAppend(SummaryCalls(init, cache), SlotCalls(slot));
    }
  }

  lemma SlotCallsOnlyCompact(slot: seq<Analysis>)
    ensures OnlyCompactions(SlotCalls(slot))
  {
    var b := SlotCalls(slot);
    CompactionCallsShape(Tickers(slot), slot);
    assert forall i :: 0 <= i < |b| ==> b[i] in b;
  }

  lemma OnlyCompactionsAppend(a: seq<Call>, b: seq<Call>)
    requires OnlyCompactions(a) && OnlyCompactions(b)
    ensures OnlyCompactions(a + b)
  {
    assert forall i :: |a| <= i < |a + b| ==> (a + b)[i] == b[i - |a|];
  }

  /**
   * `buscar_noticias` is called exactly once for each distinct ticker, and
   * never for any other, in the whole of Phase 1.
   */
  lemma Phase1FetchesOnce(svc: Services, p: Params, order: seq<string>, cache: map<string, seq<Analysis>>, t: string)
    requires StrictlySorted(order)
    ensures FetchCount(Phase1Calls(svc, p, order, cache), t) == if t in order then 1 else 0
  {
    StrictlySortedDistinct(order);
    FetchPhaseCount(svc, p, order, t);
    SummaryCallsOnlyCompact(order, cache);
    FetchFreeCount(SummaryCalls(order, cache), t);
    FetchCountAppend(FetchPhaseCalls(svc, p, order), SummaryCalls(order, cache), t);
  }
}
