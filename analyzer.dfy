/**
 * The language-model side of the pipeline, from src/ai_analyzer.py: decoding a
 * scoring reply, the per-article scoring loop, the top-N selection and the
 * per-ticker executive summaries.
 */
module Analyzer {
  import opened Records
  import opened Strings
  import opened Oracles

  /** The markdown code fence a reply may be wrapped in. */
  const FENCE := "```"
  /** Language tag that may follow the opening fence. */
  const JSON_TAG := "json"
  /** Title used for an article without one. */
  const UNTITLED := "Sem título"
  /** Summary stored for a ticker whose compaction call failed. */
  const FALLBACK_SUMMARY := "Resumo não disponível."

  // ---------------------------------------------------------------------------
  // Decoding a scoring reply
  // ---------------------------------------------------------------------------

  /** The text without one leading "json" tag. */
  function Untagged(inner: string): (r: string)
    ensures StartsWith(inner, JSON_TAG) ==> inner == JSON_TAG + r
    ensures !StartsWith(inner, JSON_TAG) ==> r == inner
  {
    if StartsWith(inner, JSON_TAG) then
      assert inner == inner[..|JSON_TAG|] + inner[|JSON_TAG|..];
      inner[|JSON_TAG|..]
    else inner
  }

  /**
   * The text handed to the JSON decoder: the reply stripped; when it opens with
   * a fence, the text up to the next fence (`split("```")[1]`), without a
   * leading "json" tag, stripped again.
   */
  function StripFence(content: string): (r: string)
    ensures IsStripped(r)
    ensures |r| <= |content|
  {
    var c := Strip(content);
    if StartsWith(c, FENCE) then
      var inner := PrefixBefore(c[|FENCE|..], FENCE);
      assert |inner| <= |c|;
      Strip(Untagged(inner))
    else c
  }

  /** For a reply that is already stripped and opens with a fence. */
  lemma StripFenceOfFenced(c: string)
    requires IsStripped(c) && StartsWith(c, FENCE)
    ensures StripFence(c) == Strip(Untagged(PrefixBefore(c[|FENCE|..], FENCE)))
  {
    StripStripped(c);
  }

  lemma ClosingFence(rest: string, inner: string)
    requires rest == inner + FENCE && '`' !in inner
    ensures PrefixBefore(rest, FENCE) == inner
  {
    assert rest == inner + FENCE + "";
    PrefixBeforeFirst(inner, FENCE, "");
  }

  /** For a stripped reply made of a fence, `inner` and a closing fence. */
  lemma FencedParts(c: string, inner: string)
    requires IsStripped(c) && StartsWith(c, FENCE) && c[|FENCE|..] == inner + FENCE
    requires '`' !in inner
    ensures StripFence(c) == Strip(Untagged(inner))
  {
    StripFenceOfFenced(c);
    ClosingFence(c[|FENCE|..], inner);
  }

  /** A reply that does not open with a fence is only stripped. */
  lemma UnfencedIsStripped(content: string)
    requires !StartsWith(Strip(content), FENCE)
    ensures StripFence(content) == Strip(content)
  {
  }

  /**
   * A reply that is one fence-delimited block: the decoder gets the text inside
   * the fences, without a leading "json" tag, stripped.
   */
  lemma FencedBlock(inner: string)
    requires '`' !in inner
    ensures StripFence(FENCE + inner + FENCE) == Strip(Untagged(inner))
  {
    var c := FENCE + inner + FENCE;
    assert c[0] == '`' && c[|c| - 1] == '`';
    assert c[..|FENCE|] == FENCE;
    assert c[|FENCE|..] == inner + FENCE;
    FencedParts(c, inner);
  }

  /**
   * Round trip: a stripped JSON text without backticks, wrapped in a fence
   * tagged "json", decodes from the JSON text itself.
   */
  lemma FencedRoundTrip(j: string)
    requires IsStripped(j) && '`' !in j
    ensures StripFence(FENCE + JSON_TAG + "\n" + j + "\n" + FENCE) == j
  {
    TaggedShape(j);
    TaggedBlock("\n" + j + "\n");
    StripNewlines(j);
  }

  lemma StripNewlines(j: string)
    requires IsStripped(j)
    ensures Strip("\n" + j + "\n") == j
  {
    StripPadded("\n", j, "\n");
  }

  /** A fenced block tagged "json": the decoder gets the rest of the block, stripped. */
  lemma TaggedBlock(rest: string)
    requires '`' !in JSON_TAG + rest
    ensures StripFence(FENCE + (JSON_TAG + rest) + FENCE) == Strip(rest)
  {
    FencedBlock(JSON_TAG + rest);
    UntaggedOfTagged(rest);
  }

  lemma TaggedShape(j: string)
    requires '`' !in j
    ensures '`' !in JSON_TAG + ("\n" + j + "\n")
    ensures FENCE + JSON_TAG + "\n" + j + "\n" + FENCE == FENCE + (JSON_TAG + ("\n" + j + "\n")) + FENCE
  {
  }

  lemma UntaggedOfTagged(rest: string)
    ensures Untagged(JSON_TAG + rest) == rest
  {
    assert (JSON_TAG + rest)[..|JSON_TAG|] == JSON_TAG;
  }

  /** The same without the language tag, for text that does not begin with "json". */
  lemma BareFencedRoundTrip(j: string)
    requires IsStripped(j) && '`' !in j && !StartsWith(j, JSON_TAG)
    ensures StripFence(FENCE + j + FENCE) == j
  {
    FencedBlock(j);
    StripStripped(j);
  }

  // ---------------------------------------------------------------------------
  // Scoring the articles of one ticker
  // ---------------------------------------------------------------------------

  /** `artigo.get('title', 'Sem título')`. */
  function Title(a: Article): string {
    a.title.GetOr(UNTITLED)
  }

  /** The article has a truthy body, so it is sent for scoring. */
  predicate HasBody(a: Article) {
    a.body.Some? && a.body.value != ""
  }

  /** The titles of the articles, in order. */
  function Titles(articles: seq<Article>): (r: seq<string>)
    ensures |r| == |articles|
  {
    if articles == [] then [] else Titles(articles[..|articles| - 1]) + [Title(articles[|articles| - 1])]
  }

  /**
   * What one article adds to the result: nothing when its body is empty, the
   * scoring call fails or the reply does not decode to a JSON object;
   * otherwise the decoded scoring tagged with the title and the ticker.
   */
  function Outcome(a: Article, ticker: string, scoring: (string, string) -> Option<string>,
                   loads: string -> Option<Scoring>): (r: Option<Analysis>)
    ensures r.Some? <==> HasBody(a) && scoring(ticker, a.body.value).Some?
                         && loads(StripFence(scoring(ticker, a.body.value).value)).Some?
    ensures r.Some? ==> var s := loads(StripFence(scoring(ticker, a.body.value).value)).value;
                        r.value == Analysis(s.relevante, s.resumo, s.sentimento, Title(a), ticker)
  {
    if !HasBody(a) then None
    else
      match scoring(ticker, a.body.value)
      case None => None
      case Some(content) =>
        match loads(StripFence(content))
        case None => None
        case Some(s) => Some(Analysis(s.relevante, s.resumo, s.sentimento, Title(a), ticker))
  }

  /** The analyses `analisar_com_gpt` returns for `articles` about `ticker`. */
  function Analyses(articles: seq<Article>, ticker: string, scoring: (string, string) -> Option<string>,
                    loads: string -> Option<Scoring>): (r: seq<Analysis>)
    ensures |r| <= |articles|
    ensures forall i :: 0 <= i < |r| ==> r[i].ticker == ticker && r[i].titulo in Titles(articles)
  {
    if articles == [] then []
    else
      var init := articles[..|articles| - 1];
      var last := articles[|articles| - 1];
      var r0 := Analyses(init, ticker, scoring, loads);
      match Outcome(last, ticker, scoring, loads)
      case None => r0
      case Some(x) => r0 + [x]
  }

  /** The scoring calls `analisar_com_gpt` makes: one per article with a body, in order. */
  function ScoringCalls(articles: seq<Article>, ticker: string): (r: seq<Call>)
    ensures |r| <= |articles|
    ensures forall i :: 0 <= i < |r| ==> r[i].ScoreCall? && r[i].ticker == ticker && r[i].body != ""
  {
    if articles == [] then []
    else
      var last := articles[|articles| - 1];
      ScoringCalls(articles[..|articles| - 1], ticker)
        + (if HasBody(last) then [ScoreCall(ticker, last.body.value)] else [])
  }

  /**
   * Articles are handled independently: a failing article neither stops nor
   * changes the analyses of the articles after it.
   */
  lemma {:induction false} AnalysesAppend(a: seq<Article>, b: seq<Article>, ticker: string,
                                          scoring: (string, string) -> Option<string>,
                                          loads: string -> Option<Scoring>)
    ensures Analyses(a + b, ticker, scoring, loads)
         == Analyses(a, ticker, scoring, loads) + Analyses(b, ticker, scoring, loads)
  {
    if b == [] {
      assert a + b == a;
    } else {
      var b0 := b[..|b| - 1];
      assert (a + b)[..|a + b| - 1] == a + b0;
      assert (a + b)[|a + b| - 1] == b[|b| - 1];
      AnalysesAppend(a, b0, ticker, scoring, loads);
    }
  }

  lemma {:induction false} ScoringCallsAppend(a: seq<Article>, b: seq<Article>, ticker: string)
    ensures ScoringCalls(a + b, ticker) == ScoringCalls(a, ticker) + ScoringCalls(b, ticker)
  {
    if b == [] {
      assert a + b == a;
    } else {
      var b0 := b[..|b| - 1];
      assert (a + b)[..|a + b| - 1] == a + b0;
      assert (a + b)[|a + b| - 1] == b[|b| - 1];
      ScoringCallsAppend(a, b0, ticker);
    }
  }

  /** Every analysis comes from a scoring call of its own. */
  lemma {:induction false} AnalysesNeedCalls(articles: seq<Article>, ticker: string,
                                             scoring: (string, string) -> Option<string>,
                                             loads: string -> Option<Scoring>)
    ensures |Analyses(articles, ticker, scoring, loads)| <= |ScoringCalls(articles, ticker)|
  {
    if articles != [] {
      AnalysesNeedCalls(articles[..|articles| - 1], ticker, scoring, loads);
    }
  }

  /** Articles without a body are never sent for scoring and yield nothing. */
  lemma {:induction false} NoBodiesNoCalls(articles: seq<Article>, ticker: string,
                                           scoring: (string, string) -> Option<string>,
                                           loads: string -> Option<Scoring>)
    requires forall i :: 0 <= i < |articles| ==> !HasBody(articles[i])
    ensures ScoringCalls(articles, ticker) == []
    ensures Analyses(articles, ticker, scoring, loads) == []
  {
    if articles != [] {
      NoBodiesNoCalls(articles[..|articles| - 1], ticker, scoring, loads);
    }
  }

  /** When every article has a body that scores and decodes, none is lost. */
  lemma {:induction false} AllScoredKeepsAll(articles: seq<Article>, ticker: string,
                                             scoring: (string, string) -> Option<string>,
                                             loads: string -> Option<Scoring>)
    requires forall i :: 0 <= i < |articles| ==> HasBody(articles[i])
    requires forall i :: 0 <= i < |articles| && HasBody(articles[i]) ==>
               scoring(ticker, articles[i].body.value).Some?
               && loads(StripFence(scoring(ticker, articles[i].body.value).value)).Some?
    ensures |Analyses(articles, ticker, scoring, loads)| == |articles|
    ensures |ScoringCalls(articles, ticker)| == |articles|
  {
    if articles != [] {
      var init := articles[..|articles| - 1];
      assert forall i :: 0 <= i < |init| ==> init[i] == articles[i];
      AllScoredKeepsAll(init, ticker, scoring, loads);
    }
  }

  /**
   * `analisar_com_gpt`: scores every article with a body, in order, and keeps
   * the decoded replies tagged with the title and the ticker; a failing
   * article is skipped.
   */
  method AnalyseWithGpt(svc: Services, articles: seq<Article>, ticker: string,
                        loads: string -> Option<Scoring>)
    returns (analyses: seq<Analysis>)
    modifies svc
    ensures analyses == Analyses(articles, ticker, svc.scoring, loads)
    ensures svc.log == old(svc.log) + ScoringCalls(articles, ticker)
  {
    if articles == [] {
      return [];
    }
    analyses := [];
    var i := 0;
    while i < |articles|
      invariant 0 <= i <= |articles|
      invariant analyses == Analyses(articles[..i], ticker, svc.scoring, loads)
      invariant svc.log == old(svc.log) + ScoringCalls(articles[..i], ticker)
    {
      var article := articles[i];
      assert articles[..i + 1][..i] == articles[..i];
      assert articles[..i + 1][i] == article;
      i := i + 1;
      if !HasBody(article) {
        continue;
      }
      var content := svc.Score(ticker, article.body.value);
      if content.None? {
        continue;
      }
      var parsed := loads(StripFence(content.value));
      if parsed.None? {
        continue;
      }
      var s := parsed.value;
      analyses := analyses + [Analysis(s.relevante, s.resumo, s.sentimento, Title(article), ticker)];
    }
    assert articles[..i] == articles;
  }

  // ---------------------------------------------------------------------------
  // Selecting the top relevant analyses
  // ---------------------------------------------------------------------------

  /**
   * The sort key `abs(x.get('sentimento', 0))`: a missing key counts as 0 and
   * a boolean as 0 or 1; `None`, a text or a container makes `abs` raise
   * (`None` here).
   */
  function SortKey(v: Value): (r: Option<real>)
    ensures r.Some? <==> v.Absent? || v.Bool? || v.Number?
    ensures r.Some? ==> r.value >= 0.0
    ensures v.Number? ==> r == Some(if v.x < 0.0 then -v.x else v.x)
  {
    match v
    case Absent => Some(0.0)
    case Bool(b) => Some(if b then 1.0 else 0.0)
    case Number(x) => Some(if x < 0.0 then -x else x)
    case _ => None
  }

  /** The analysis has a sort key. */
  predicate Numeric(a: Analysis) {
    SortKey(a.sentimento).Some?
  }

  /** `|sentimento|`, read only once every key is known to exist. */
  function Magnitude(a: Analysis): real {
    SortKey(a.sentimento).GetOr(0.0)
  }

  /** `[a for a in analises if a.get('relevante', False)]`. */
  function Relevant(s: seq<Analysis>): (r: seq<Analysis>)
    ensures |r| <= |s|
    ensures forall i :: 0 <= i < |r| ==> Truthy(r[i].relevante) && r[i] in s
  {
    if s == [] then []
    else if Truthy(s[0].relevante) then [s[0]] + Relevant(s[1..])
    else Relevant(s[1..])
  }

  /** The items of `s` whose magnitude is `k`, in order. */
  function WithMagnitude(s: seq<Analysis>, k: real): seq<Analysis> {
    if s == [] then []
    else (if Magnitude(s[0]) == k then [s[0]] else []) + WithMagnitude(s[1..], k)
  }

  /** Ordered by magnitude, largest first. */
  predicate Descending(s: seq<Analysis>) {
    forall i, j :: 0 <= i < j < |s| ==> Magnitude(s[i]) >= Magnitude(s[j])
  }

  /**
   * Inserts `x` before the first item of no greater magnitude, which keeps
   * `x` ahead of the items of equal magnitude that came after it in the input.
   */
  function Insert(t: seq<Analysis>, x: Analysis): (r: seq<Analysis>)
    ensures |r| == |t| + 1
  {
    if t == [] then [x]
    else if Magnitude(t[0]) <= Magnitude(x) then [x] + t
    else [t[0]] + Insert(t[1..], x)
  }

  /** `sorted(s, key=Magnitude, reverse=True)`: a stable sort, largest first. */
  function SortByMagnitude(s: seq<Analysis>): (r: seq<Analysis>)
    ensures |r| == |s|
  {
    if s == [] then [] else Insert(SortByMagnitude(s[1..]), s[0])
  }

  /** Python's `s[:n]`, where a negative `n` drops `-n` items from the end. */
  function PyPrefix(s: seq<Analysis>, n: int): (r: seq<Analysis>)
    ensures |r| <= |s| && r == s[..|r|]
    ensures n >= 0 ==> |r| == if n <= |s| then n else |s|
    ensures n < 0 ==> |r| == if -n <= |s| then |s| + n else 0
  {
    if n >= |s| then s
    else if n >= 0 then s[..n]
    else if -n <= |s| then s[..|s| + n]
    else []
  }

  /** Every item of `s` has a sort key. */
  predicate AllNumeric(s: seq<Analysis>) {
    forall i :: 0 <= i < |s| ==> Numeric(s[i])
  }

  /**
   * `filtrar_top_relevantes(analises, top_n)`: the relevant analyses, stably
   * sorted by magnitude, largest first, cut to `top_n` (the configured value
   * when `top_n` is `None`). Raises when a relevant item has no sort key.
   */
  function FilterTopRelevant(analyses: seq<Analysis>, topN: Option<int>, configured: int)
    : (r: Result<seq<Analysis>>)
  {
    var relevant := Relevant(analyses);
    if AllNumeric(relevant) then Ok(PyPrefix(SortByMagnitude(relevant), topN.GetOr(configured)))
    else Raised
  }

  /** An item is kept by the relevance filter exactly when it is relevant. */
  lemma {:induction false} RelevantMembers(s: seq<Analysis>, x: Analysis)
    ensures x in Relevant(s) <==> x in s && Truthy(x.relevante)
  {
    if s != [] {
      RelevantMembers(s[1..], x);
    }
  }

  /** Inserting adds exactly the one item. */
  lemma {:induction false} InsertPermutes(t: seq<Analysis>, x: Analysis)
    ensures multiset(Insert(t, x)) == multiset(t) + multiset{x}
  {
    if t != [] && Magnitude(t[0]) > Magnitude(x) {
      InsertPermutes(t[1..], x);
      assert t == [t[0]] + t[1..];
    }
  }

  /** The sort is a permutation of its input. */
  lemma {:induction false} SortPermutes(s: seq<Analysis>)
    ensures multiset(SortByMagnitude(s)) == multiset(s)
  {
    if s != [] {
      SortPermutes(s[1..]);
      InsertPermutes(SortByMagnitude(s[1..]), s[0]);
      assert s == [s[0]] + s[1..];
    }
  }

  lemma DescendingCons(a: Analysis, r: seq<Analysis>)
    requires Descending(r)
    requires forall y :: y in r ==> Magnitude(a) >= Magnitude(y)
    ensures Descending([a] + r)
  {
    forall i, j | 0 <= i < j < |[a] + r| ensures Magnitude(([a] + r)[i]) >= Magnitude(([a] + r)[j]) {
      assert ([a] + r)[j] == r[j - 1];
      if i > 0 {
        assert ([a] + r)[i] == r[i - 1];
      }
    }
  }

  lemma {:induction false} InsertDescending(t: seq<Analysis>, x: Analysis)
    requires Descending(t)
    ensures Descending(Insert(t, x))
  {
    if t == [] {
      assert Insert(t, x) == [x];
    } else if Magnitude(t[0]) <= Magnitude(x) {
      assert t == [t[0]] + t[1..];
      DescendingCons(x, t);
    } else {
      assert t == [t[0]] + t[1..];
      InsertDescending(t[1..], x);
      InsertPermutes(t[1..], x);
      var r := Insert(t[1..], x);
      forall y | y in r ensures Magnitude(t[0]) >= Magnitude(y) {
        assert y in multiset(r);
        if y != x {
          assert y in multiset(t[1..]);
        }
      }
      DescendingCons(t[0], r);
    }
  }

  lemma {:induction false} SortDescending(s: seq<Analysis>)
    ensures Descending(SortByMagnitude(s))
  {
    if s != [] {
      SortDescending(s[1..]);
      InsertDescending(SortByMagnitude(s[1..]), s[0]);
    }
  }

  lemma {:induction false} WithMagnitudeNone(s: seq<Analysis>, k: real)
    requires forall i :: 0 <= i < |s| ==> Magnitude(s[i]) != k
    ensures WithMagnitude(s, k) == []
  {
    if s != [] {
      WithMagnitudeNone(s[1..], k);
    }
  }

  lemma WithMagnitudeCons(a: Analysis, r: seq<Analysis>, k: real)
    ensures WithMagnitude([a] + r, k) == (if Magnitude(a) == k then [a] else []) + WithMagnitude(r, k)
  {
    assert ([a] + r)[0] == a && ([a] + r)[1..] == r;
  }

  /** The step of `InsertStable` where `x` goes after the first item. */
  lemma InsertStableDeep(t: seq<Analysis>, x: Analysis, k: real)
    requires t != [] && Magnitude(t[0]) > Magnitude(x)
    requires WithMagnitude(Insert(t[1..], x), k)
          == (if Magnitude(x) == k then [x] else []) + WithMagnitude(t[1..], k)
    ensures WithMagnitude(Insert(t, x), k)
         == (if Magnitude(x) == k then [x] else []) + WithMagnitude(t, k)
  {
    var r := Insert(t[1..], x);
    assert Insert(t, x) == [t[0]] + r;
    assert t == [t[0]] + t[1..];
    WithMagnitudeCons(t[0], r, k);
    WithMagnitudeCons(t[0], t[1..], k);
    if Magnitude(t[0]) == k {
      assert Magnitude(x) != k;
      assert WithMagnitude(r, k) == WithMagnitude(t[1..], k);
    } else {
      assert WithMagnitude(Insert(t, x), k) == WithMagnitude(r, k);
      assert WithMagnitude(t, k) == WithMagnitude(t[1..], k);
    }
  }

  lemma {:induction false} InsertStable(t: seq<Analysis>, x: Analysis, k: real)
    ensures WithMagnitude(Insert(t, x), k)
         == (if Magnitude(x) == k then [x] else []) + WithMagnitude(t, k)
  {
    if t == [] {
      WithMagnitudeCons(x, [], k);
      assert [x] + [] == [x];
    } else if Magnitude(t[0]) <= Magnitude(x) {
      WithMagnitudeCons(x, t, k);
    } else {
      InsertStable(t[1..], x, k);
      InsertStableDeep(t, x, k);
    }
  }

  /** The sort is stable: items of equal magnitude keep their input order. */
  lemma {:induction false} SortStable(s: seq<Analysis>, k: real)
    ensures WithMagnitude(SortByMagnitude(s), k) == WithMagnitude(s, k)
  {
    if s != [] {
      SortStable(s[1..], k);
      InsertStable(SortByMagnitude(s[1..]), s[0], k);
    }
  }

  /** The filter raises exactly when some relevant analysis has no sort key. */
  lemma FilterRaisesIff(analyses: seq<Analysis>, topN: Option<int>, configured: int)
    ensures FilterTopRelevant(analyses, topN, configured).Raised?
        <==> exists i :: 0 <= i < |analyses| && Truthy(analyses[i].relevante) && !Numeric(analyses[i])
  {
    var relevant := Relevant(analyses);
    if !AllNumeric(relevant) {
      var j :| 0 <= j < |relevant| && !Numeric(relevant[j]);
      var i :| 0 <= i < |analyses| && analyses[i] == relevant[j];
    }
    if i :| 0 <= i < |analyses| && Truthy(analyses[i].relevante) && !Numeric(analyses[i]) {
      RelevantMembers(analyses, analyses[i]);
      var j :| 0 <= j < |relevant| && relevant[j] == analyses[i];
    }
  }

  /** The selection is no longer than `top_n` and than the relevant items. */
  lemma FilterBounds(analyses: seq<Analysis>, topN: Option<int>, configured: int)
    requires FilterTopRelevant(analyses, topN, configured).Ok?
    ensures var top := FilterTopRelevant(analyses, topN, configured).value;
            var n := topN.GetOr(configured);
            && |top| <= |Relevant(analyses)|
            && (n >= 0 ==> |top| <= n)
            && (0 <= n <= |Relevant(analyses)| ==> |top| == n)
  {
  }

  /** Only relevant analyses from the input are selected. */
  lemma FilterSelectsRelevant(analyses: seq<Analysis>, topN: Option<int>, configured: int)
    requires FilterTopRelevant(analyses, topN, configured).Ok?
    ensures var top := FilterTopRelevant(analyses, topN, configured).value;
            forall i :: 0 <= i < |top| ==> Truthy(top[i].relevante) && top[i] in analyses
  {
    var relevant := Relevant(analyses);
    var sorted := SortByMagnitude(relevant);
    var top := FilterTopRelevant(analyses, topN, configured).value;
    SortPermutes(relevant);
    forall i | 0 <= i < |top| ensures Truthy(top[i].relevante) && top[i] in analyses {
      assert top[i] == sorted[i];
      assert sorted[i] in multiset(sorted);
      assert top[i] in relevant;
    }
  }

  /**
   * The selection is a prefix of the relevant items stably sorted by
   * magnitude, largest first, so it is itself ordered that way.
   */
  lemma FilterOrdered(analyses: seq<Analysis>, topN: Option<int>, configured: int)
    requires FilterTopRelevant(analyses, topN, configured).Ok?
    ensures var top := FilterTopRelevant(analyses, topN, configured).value;
            var sorted := SortByMagnitude(Relevant(analyses));
            && top == sorted[..|top|]
            && Descending(top)
            && multiset(sorted) == multiset(Relevant(analyses))
            && forall k :: WithMagnitude(sorted, k) == WithMagnitude(Relevant(analyses), k)
  {
    var sorted := SortByMagnitude(Relevant(analyses));
    SortDescending(Relevant(analyses));
    SortPermutes(Relevant(analyses));
    forall k ensures WithMagnitude(sorted, k) == WithMagnitude(Relevant(analyses), k) {
      SortStable(Relevant(analyses), k);
    }
  }

  /** A relevant item left out has no greater magnitude than any selected one. */
  lemma FilterLeftOutNoGreater(analyses: seq<Analysis>, topN: Option<int>, configured: int)
    requires FilterTopRelevant(analyses, topN, configured).Ok?
    ensures var top := FilterTopRelevant(analyses, topN, configured).value;
            var sorted := SortByMagnitude(Relevant(analyses));
            forall x, y :: x in sorted[|top|..] && y in top ==> Magnitude(x) <= Magnitude(y)
  {
    var top := FilterTopRelevant(analyses, topN, configured).value;
    var sorted := SortByMagnitude(Relevant(analyses));
    SortDescending(Relevant(analyses));
    forall x, y | x in sorted[|top|..] && y in top ensures Magnitude(x) <= Magnitude(y) {
      var i :| 0 <= i < |sorted[|top|..]| && sorted[|top|..][i] == x;
      var j :| 0 <= j < |top| && top[j] == y;
      assert sorted[j] == y && sorted[|top| + i] == x;
    }
  }

  /** With room for all of them, every relevant item is selected. */
  lemma FilterKeepsAllWhenRoom(analyses: seq<Analysis>, topN: Option<int>, configured: int)
    requires FilterTopRelevant(analyses, topN, configured).Ok?
    requires topN.GetOr(configured) >= |Relevant(analyses)|
    ensures multiset(FilterTopRelevant(analyses, topN, configured).value) == multiset(Relevant(analyses))
  {
    SortPermutes(Relevant(analyses));
  }

  // ---------------------------------------------------------------------------
  // Executive summaries
  // ---------------------------------------------------------------------------

  /** The tickers of the analyses, each once, in the order first seen. */
  function Tickers(analyses: seq<Analysis>): (r: seq<string>)
    ensures forall i, j :: 0 <= i < j < |r| ==> r[i] != r[j]
  {
    if analyses == [] then []
    else
      var r0 := Tickers(analyses[..|analyses| - 1]);
      var t := analyses[|analyses| - 1].ticker;
      if t in r0 then r0 else r0 + [t]
  }

  /** The listed tickers are exactly those of the analyses. */
  lemma {:induction false} TickersMembers(analyses: seq<Analysis>, t: string)
    ensures t in Tickers(analyses) <==> exists i :: 0 <= i < |analyses| && analyses[i].ticker == t
  {
    if analyses != [] {
      var init := analyses[..|analyses| - 1];
      TickersMembers(init, t);
      assert forall i :: 0 <= i < |init| ==> init[i] == analyses[i];
    }
  }

  lemma TickersStep(s: seq<Analysis>, a: Analysis)
    ensures Tickers(s + [a]) == if a.ticker in Tickers(s) then Tickers(s) else Tickers(s) + [a.ticker]
  {
    assert (s + [a])[..|s + [a]| - 1] == s;
  }

  /** The index of the first analysis about `t`, or `|s|` when there is none. */
  function FirstSeen(s: seq<Analysis>, t: string): (k: nat)
    ensures k <= |s|
    ensures k < |s| ==> s[k].ticker == t
    ensures forall i :: 0 <= i < k ==> s[i].ticker != t
  {
    if s == [] then 0 else if s[0].ticker == t then 0 else 1 + FirstSeen(s[1..], t)
  }

  /** Appending an analysis moves no first occurrence already found. */
  lemma FirstSeenAppend(s: seq<Analysis>, a: Analysis, t: string)
    ensures FirstSeen(s + [a], t)
            == if FirstSeen(s, t) < |s| then FirstSeen(s, t) else if a.ticker == t then |s| else |s| + 1
  {
    var k := FirstSeen(s + [a], t);
    var k0 := FirstSeen(s, t);
    if k0 < |s| {
      assert (s + [a])[k0] == s[k0];
      assert k <= k0;
    } else {
      assert forall i :: 0 <= i < |s| ==> (s + [a])[i].ticker != t;
      assert (s + [a])[|s|] == a;
    }
  }

  /**
   * The grouping keys are in first-seen order: an earlier key's first
   * analysis comes before a later key's first analysis, and that analysis exists.
   */
  lemma {:induction false} TickersInFirstSeenOrder(s: seq<Analysis>)
    ensures forall i :: 0 <= i < |Tickers(s)| ==> FirstSeen(s, Tickers(s)[i]) < |s|
    ensures forall i, j :: 0 <= i < j < |Tickers(s)| ==> FirstSeen(s, Tickers(s)[i]) < FirstSeen(s, Tickers(s)[j])
  {
    if s != [] {
      var init := s[..|s| - 1];
      var a := s[|s| - 1];
      assert s == init + [a];
      TickersInFirstSeenOrder(init);
      FirstSeenOrderStep(init, a);
    }
  }

  /** One more analysis keeps the keys in first-seen order. */
  lemma FirstSeenOrderStep(init: seq<Analysis>, a: Analysis)
    requires forall i :: 0 <= i < |Tickers(init)| ==> FirstSeen(init, Tickers(init)[i]) < |init|
    requires forall i, j :: 0 <= i < j < |Tickers(init)| ==> FirstSeen(init, Tickers(init)[i]) < FirstSeen(init, Tickers(init)[j])
    ensures var s := init + [a];
            forall i :: 0 <= i < |Tickers(s)| ==> FirstSeen(s, Tickers(s)[i]) < |s|
    ensures var s := init + [a];
            forall i, j :: 0 <= i < j < |Tickers(s)| ==> FirstSeen(s, Tickers(s)[i]) < FirstSeen(s, Tickers(s)[j])
  {
    TickersStep(init, a);
    var t0 := Tickers(init);
    forall i | 0 <= i < |t0| ensures FirstSeen(init + [a], t0[i]) == FirstSeen(init, t0[i]) {
      FirstSeenAppend(init, a, t0[i]);
    }
    if a.ticker !in t0 {
      FirstSeenAppend(init, a, a.ticker);
      TickersMembers(init, a.ticker);
      NewKeyLast(x => FirstSeen(init + [a], x), t0, a.ticker, |init|, |init| + 1);
    }
  }

  /**
   * Keys `t0` ordered by `pos`, all placed before `k`, followed by a key placed
   * at `k`, are ordered by `pos`, and all placed before `n`.
   */
  lemma NewKeyLast(pos: string -> int, t0: seq<string>, t: string, k: int, n: int)
    requires forall i :: 0 <= i < |t0| ==> pos(t0[i]) < k
    requires forall i, j :: 0 <= i < j < |t0| ==> pos(t0[i]) < pos(t0[j])
    requires pos(t) == k < n
    ensures forall i :: 0 <= i < |t0 + [t]| ==> pos((t0 + [t])[i]) < n
    ensures forall i, j :: 0 <= i < j < |t0 + [t]| ==> pos((t0 + [t])[i]) < pos((t0 + [t])[j])
  {
    var ts := t0 + [t];
    forall i | 0 <= i < |ts| ensures pos(ts[i]) < n {
      if i < |t0| {
        assert ts[i] == t0[i];
      }
    }
    forall i, j | 0 <= i < j < |ts| ensures pos(ts[i]) < pos(ts[j]) {
      assert ts[i] == t0[i];
      if j < |t0| {
        assert ts[j] == t0[j];
      }
    }
  }

  /** A ticker not yet seen has no summaries. */
  lemma {:induction false} GroupOfUnseen(s: seq<Analysis>, t: string)
    requires t !in Tickers(s)
    ensures Group(s, t) == []
  {
    if s != [] {
      var init := s[..|s| - 1];
      assert forall x :: x in Tickers(init) ==> x in Tickers(s);
      GroupOfUnseen(init, t);
    }
  }

  lemma GroupStep(s: seq<Analysis>, a: Analysis, t: string)
    ensures Group(s + [a], t) == Group(s, t) + (if a.ticker == t then [a.resumo] else [])
  {
    assert (s + [a])[..|s + [a]| - 1] == s;
  }

  /** The summaries (`resumo`) of the analyses about `ticker`, in order. */
  function Group(analyses: seq<Analysis>, ticker: string): (r: seq<Value>)
    ensures |r| <= |analyses|
  {
    if analyses == [] then []
    else
      var last := analyses[|analyses| - 1];
      Group(analyses[..|analyses| - 1], ticker) + (if last.ticker == ticker then [last.resumo] else [])
  }

  /** A ticker's group holds exactly the summaries of the analyses about it. */
  lemma {:induction false} GroupMembers(s: seq<Analysis>, t: string, v: Value)
    ensures v in Group(s, t) <==> exists i :: 0 <= i < |s| && s[i].ticker == t && s[i].resumo == v
  {
    if s != [] {
      var init := s[..|s| - 1];
      var last := s[|s| - 1];
      GroupMembers(init, t, v);
      GroupIndexStep(init, last, t, v);
      assert s == init + [last];
    }
  }

  /** The inductive step of GroupMembers: one more analysis, one more index to look at. */
  lemma GroupIndexStep(init: seq<Analysis>, last: Analysis, t: string, v: Value)
    requires v in Group(init, t) <==> exists i :: 0 <= i < |init| && init[i].ticker == t && init[i].resumo == v
    ensures var s := init + [last];
            v in Group(s, t) <==> exists i :: 0 <= i < |s| && s[i].ticker == t && s[i].resumo == v
  {
    var s := init + [last];
    GroupStep(init, last, t);
    if v in Group(init, t) {
      var i :| 0 <= i < |init| && init[i].ticker == t && init[i].resumo == v;
      assert s[i] == init[i];
    } else if last.ticker == t && last.resumo == v {
      assert s[|init|] == last;
    } else {
      forall i | 0 <= i < |s| && s[i].ticker == t ensures s[i].resumo != v {
        if i < |init| {
          assert s[i] == init[i];
        }
      }
    }
  }

  /** The truthy summaries, the ones that become lines of the compaction prompt. */
  function Lines(group: seq<Value>): seq<Value> {
    if group == [] then []
    else if Truthy(group[0]) then [group[0]] + Lines(group[1..])
    else Lines(group[1..])
  }

  /** The lines are the truthy summaries of the group, and only those. */
  lemma {:induction false} LinesSpec(group: seq<Value>)
    ensures |Lines(group)| <= |group|
    ensures forall v :: v in Lines(group) <==> v in group && Truthy(v)
  {
    if group != [] {
      LinesSpec(group[1..]);
      assert group == [group[0]] + group[1..];
    }
  }

  /** The stored summary: the stripped reply, or the fallback text when the call failed. */
  function SummaryText(reply: Option<string>): (r: string)
    ensures reply.None? ==> r == FALLBACK_SUMMARY
    ensures reply.Some? ==> r == Strip(reply.value) && |r| <= |reply.value|
  {
    match reply
    case None => FALLBACK_SUMMARY
    case Some(c) => Strip(c)
  }

  /** The summaries for the tickers `ts`, walked in order. */
  function SummariesOver(ts: seq<string>, analyses: seq<Analysis>,
                         compaction: (string, seq<Value>) -> Option<string>): map<string, string>
  {
    if ts == [] then map[]
    else
      var m := SummariesOver(ts[..|ts| - 1], analyses, compaction);
      var t := ts[|ts| - 1];
      var lines := Lines(Group(analyses, t));
      if lines == [] then m else m[t := SummaryText(compaction(t, lines))]
  }

  /** What `gerar_resumo_executivo(analises)` returns. */
  function ExecutiveSummary(analyses: seq<Analysis>,
                            compaction: (string, seq<Value>) -> Option<string>): map<string, string>
  {
    SummariesOver(Tickers(analyses), analyses, compaction)
  }

  /** The compaction calls for the tickers `ts`: one per ticker with lines, in order. */
  function CompactionCallsOver(ts: seq<string>, analyses: seq<Analysis>): seq<Call> {
    if ts == [] then []
    else
      var t := ts[|ts| - 1];
      var lines := Lines(Group(analyses, t));
      CompactionCallsOver(ts[..|ts| - 1], analyses) + (if lines == [] then [] else [CompactCall(t, lines)])
  }

  function CompactionCalls(analyses: seq<Analysis>): seq<Call> {
    CompactionCallsOver(Tickers(analyses), analyses)
  }

  /** At most one compaction call per ticker, each over a non-empty list of lines. */
  lemma {:induction false} CompactionCallsShape(ts: seq<string>, analyses: seq<Analysis>)
    ensures |CompactionCallsOver(ts, analyses)| <= |ts|
    ensures forall c :: c in CompactionCallsOver(ts, analyses) ==> c.CompactCall? && c.ticker in ts && c.lines != []
  {
    if ts != [] {
      var init := ts[..|ts| - 1];
      CompactionCallsShape(init, analyses);
      assert forall t :: t in init ==> t in ts;
    }
  }

  /**
   * Over distinct tickers, no two compaction calls are for the same ticker,
   * and each call carries the lines of its ticker's group.
   */
  lemma {:induction false} CompactionCallsPerTicker(ts: seq<string>, analyses: seq<Analysis>)
    requires forall i, j :: 0 <= i < j < |ts| ==> ts[i] != ts[j]
    ensures var calls := CompactionCallsOver(ts, analyses);
            forall i :: 0 <= i < |calls|
              ==> calls[i].CompactCall? && calls[i].lines == Lines(Group(analyses, calls[i].ticker))
    ensures var calls := CompactionCallsOver(ts, analyses);
            forall i, j :: 0 <= i < j < |calls| ==> calls[i].ticker != calls[j].ticker
  {
    if ts != [] {
      var init := ts[..|ts| - 1];
      var t := ts[|ts| - 1];
      CompactionCallsPerTicker(init, analyses);
      CompactionCallsShape(init, analyses);
      assert t !in init by {
        forall k | 0 <= k < |init| ensures init[k] != t {
          assert init[k] == ts[k];
        }
      }
      var calls0 := CompactionCallsOver(init, analyses);
      var calls := CompactionCallsOver(ts, analyses);
      forall i | 0 <= i < |calls0| ensures calls[i] == calls0[i] {
      }
      forall i, j | 0 <= i < j < |calls| ensures calls[i].ticker != calls[j].ticker {
        if j >= |calls0| {
          assert calls[i] in calls0;
        }
      }
    }
  }

  /** The whole grouping makes at most one compaction call per ticker, with its lines. */
  lemma CompactionCallsOnce(analyses: seq<Analysis>)
    ensures var calls := CompactionCalls(analyses);
            forall i :: 0 <= i < |calls|
              ==> calls[i].CompactCall? && calls[i].lines == Lines(Group(analyses, calls[i].ticker))
    ensures var calls := CompactionCalls(analyses);
            forall i, j :: 0 <= i < j < |calls| ==> calls[i].ticker != calls[j].ticker
  {
    TickersInFirstSeenOrder(analyses);
    CompactionCallsPerTicker(Tickers(analyses), analyses);
    assert CompactionCalls(analyses) == CompactionCallsOver(Tickers(analyses), analyses);
  }

  lemma {:induction false} SummariesOverSpec(ts: seq<string>, analyses: seq<Analysis>,
                                             compaction: (string, seq<Value>) -> Option<string>, t: string)
    ensures var m := SummariesOver(ts, analyses, compaction);
            && (t in m <==> t in ts && Lines(Group(analyses, t)) != [])
            && (t in m ==> m[t] == SummaryText(compaction(t, Lines(Group(analyses, t)))))
  {
    if ts != [] {
      SummariesOverSpec(ts[..|ts| - 1], analyses, compaction, t);
      assert ts == ts[..|ts| - 1] + [ts[|ts| - 1]];
    }
  }

  /** A ticker has compaction lines exactly when one of its analyses has a truthy summary. */
  lemma GroupHasLines(s: seq<Analysis>, t: string)
    ensures Lines(Group(s, t)) != [] <==> exists i :: 0 <= i < |s| && s[i].ticker == t && Truthy(s[i].resumo)
  {
    var g := Group(s, t);
    LinesSpec(g);
    if Lines(g) != [] {
      var v := Lines(g)[0];
      assert v in Lines(g);
      GroupMembers(s, t, v);
    }
    if exists i :: 0 <= i < |s| && s[i].ticker == t && Truthy(s[i].resumo) {
      var i :| 0 <= i < |s| && s[i].ticker == t && Truthy(s[i].resumo);
      GroupMembers(s, t, s[i].resumo);
      assert s[i].resumo in Lines(g);
    }
  }

  /**
   * A ticker gets a summary exactly when some analysis is about it and at
   * least one of its summaries is non-empty; the summary is the stripped
   * compaction reply, or "Resumo não disponível." when that call failed.
   */
  lemma ExecutiveSummarySpec(analyses: seq<Analysis>,
                             compaction: (string, seq<Value>) -> Option<string>, t: string)
    ensures var m := ExecutiveSummary(analyses, compaction);
            && (t in m <==> (exists i :: 0 <= i < |analyses| && analyses[i].ticker == t)
                            && Lines(Group(analyses, t)) != [])
            && (t in m <==> exists i :: 0 <= i < |analyses| && analyses[i].ticker == t
                                       && Truthy(analyses[i].resumo))
            && (t in m && compaction(t, Lines(Group(analyses, t))).None? ==> m[t] == FALLBACK_SUMMARY)
            && ((t in m && compaction(t, Lines(Group(analyses, t))).Some?)
                ==> m[t] == Strip(compaction(t, Lines(Group(analyses, t))).value))
  {
    SummariesOverSpec(Tickers(analyses), analyses, compaction, t);
    TickersMembers(analyses, t);
    GroupHasLines(analyses, t);
  }

  /** A ticker without lines adds neither a summary nor a call. */
  lemma SummariesSkip(ts: seq<string>, t: string, analyses: seq<Analysis>,
                      compaction: (string, seq<Value>) -> Option<string>)
    requires Lines(Group(analyses, t)) == []
    ensures SummariesOver(ts + [t], analyses, compaction) == SummariesOver(ts, analyses, compaction)
    ensures CompactionCallsOver(ts + [t], analyses) == CompactionCallsOver(ts, analyses)
  {
    assert (ts + [t])[..|ts + [t]| - 1] == ts;
  }

  /** A ticker with lines adds one call and its summary. */
  lemma SummariesAdd(ts: seq<string>, t: string, analyses: seq<Analysis>,
                     compaction: (string, seq<Value>) -> Option<string>, lines: seq<Value>)
    requires lines == Lines(Group(analyses, t)) && lines != []
    ensures SummariesOver(ts + [t], analyses, compaction)
         == SummariesOver(ts, analyses, compaction)[t := SummaryText(compaction(t, lines))]
    ensures CompactionCallsOver(ts + [t], analyses) == CompactionCallsOver(ts, analyses) + [CompactCall(t, lines)]
  {
    assert (ts + [t])[..|ts + [t]| - 1] == ts;
  }

  /** No analyses, no summaries and no calls. */
  lemma ExecutiveSummaryOfNothing(compaction: (string, seq<Value>) -> Option<string>)
    ensures ExecutiveSummary([], compaction) == map[]
    ensures CompactionCalls([]) == []
  {
  }

  /** One iteration of the first loop of `gerar_resumo_executivo`. */
  method GroupOne(ghost done: seq<Analysis>, a: Analysis, order: seq<string>, groups: map<string, seq<Value>>)
    returns (order': seq<string>, groups': map<string, seq<Value>>)
    requires order == Tickers(done)
    requires forall t :: t in groups <==> t in order
    requires forall t :: t in groups ==> groups[t] == Group(done, t)
    ensures order' == Tickers(done + [a])
    ensures forall t :: t in groups' <==> t in order'
    ensures forall t :: t in groups' ==> groups'[t] == Group(done + [a], t)
  {
    TickersStep(done, a);
    forall t ensures Group(done + [a], t) == Group(done, t) + (if a.ticker == t then [a.resumo] else []) {
      GroupStep(done, a, t);
    }
    order', groups' := order, groups;
    if a.ticker !in groups {
      GroupOfUnseen(done, a.ticker);
      order' := order + [a.ticker];
      groups' := groups[a.ticker := []];
    }
    groups' := groups'[a.ticker := groups'[a.ticker] + [a.resumo]];
  }

  /**
   * The first loop of `gerar_resumo_executivo`: the tickers in first-seen
   * order and, for each, its summaries in order.
   */
  method GroupByTicker(analyses: seq<Analysis>)
    returns (order: seq<string>, groups: map<string, seq<Value>>)
    ensures order == Tickers(analyses)
    ensures forall t :: t in groups <==> t in order
    ensures forall t :: t in groups ==> groups[t] == Group(analyses, t)
  {
    order := [];
    groups := map[];
    var i := 0;
    while i < |analyses|
      invariant 0 <= i <= |analyses|
      invariant order == Tickers(analyses[..i])
      invariant forall t :: t in groups <==> t in order
      invariant forall t :: t in groups ==> groups[t] == Group(analyses[..i], t)
    {
      TakeOneMore(analyses, i);
      order, groups := GroupOne(analyses[..i], analyses[i], order, groups);
      i := i + 1;
    }
    assert analyses[..i] == analyses;
  }

  /**
   * The second loop of `gerar_resumo_executivo`: one compaction call, in
   * order, per ticker of `order` with non-empty summaries.
   */
  method CompactGroups(svc: Services, analyses: seq<Analysis>, order: seq<string>,
                       groups: map<string, seq<Value>>)
    returns (summaries: map<string, string>)
    requires forall t :: t in order ==> t in groups && groups[t] == Group(analyses, t)
    modifies svc
    ensures summaries == SummariesOver(order, analyses, svc.compaction)
    ensures svc.log == old(svc.log) + CompactionCallsOver(order, analyses)
  {
    summaries := map[];
    var j := 0;
    while j < |order|
      invariant 0 <= j <= |order|
      invariant summaries == SummariesOver(order[..j], analyses, svc.compaction)
      invariant svc.log == old(svc.log) + CompactionCallsOver(order[..j], analyses)
    {
      var t := order[j];
      ghost var done := order[..j];
      TakeOneMore(order, j);
      var lines := Lines(groups[t]);
      j := j + 1;
      if lines == [] {
        SummariesSkip(done, t, analyses, svc.compaction);
      } else {
        SummariesAdd(done, t, analyses, svc.compaction, lines);
        var reply := svc.Compact(t, lines);
        summaries := summaries[t := SummaryText(reply)];
      }
    }
    assert order[..j] == order;
  }

  /**
   * `gerar_resumo_executivo`: groups the summaries by ticker in first-seen
   * order, then asks for one compacted summary per ticker with non-empty
   * summaries.
   */
  method GenerateExecutiveSummary(svc: Services, analyses: seq<Analysis>)
    returns (summaries: map<string, string>)
    modifies svc
    ensures summaries == ExecutiveSummary(analyses, svc.compaction)
    ensures svc.log == old(svc.log) + CompactionCalls(analyses)
  {
    if analyses == [] {
      return map[];
    }
    var order, groups := GroupByTicker(analyses);
    summaries := CompactGroups(svc, analyses, order, groups);
  }
}
