/**
 * The external services the pipeline calls: the news search, the language
 * model (one call kind that scores an article, one that compacts summaries)
 * and the mail sender. Their answers are fixed tables given when the object
 * is created; every call is appended to `log`, so that properties about how
 * often and when each service is called can be stated over the log.
 */
module Oracles {
  import opened Records

  /** One call to an external service, with the inputs the service sees. */
  datatype Call =
    | FetchCall(ticker: string, start: string, end: string, maxItems: int)
    | ScoreCall(ticker: string, body: string)
    | CompactCall(ticker: string, lines: seq<Value>)
    | SendCall(to: string, analyses: seq<Analysis>, summaries: map<string, string>)

  class Services {
    /** Articles the news service returns for (ticker, start, end, max items). */
    const news: (string, string, string, int) -> seq<Article>
    /**
     * The message content of the language model's reply to the scoring prompt
     * for (ticker, body); `None` when the HTTP call or the reply's shape fails.
     */
    const scoring: (string, string) -> Option<string>
    /** The same for the compaction prompt over a ticker's non-empty summaries. */
    const compaction: (string, seq<Value>) -> Option<string>
    /** What rendering and sending the email for (user, analyses, summaries) comes to. */
    const delivery: (User, seq<Analysis>, map<string, string>) -> Delivery

    /** Every call made so far, oldest first. */
    var log: seq<Call>

    constructor (
      news: (string, string, string, int) -> seq<Article>,
      scoring: (string, string) -> Option<string>,
      compaction: (string, seq<Value>) -> Option<string>,
      delivery: (User, seq<Analysis>, map<string, string>) -> Delivery)
      ensures this.news == news && this.scoring == scoring
      ensures this.compaction == compaction && this.delivery == delivery
      ensures log == []
    {
      this.news := news;
      this.scoring := scoring;
      this.compaction := compaction;
      this.delivery := delivery;
      log := [];
    }

    method FetchNews(ticker: string, start: string, end: string, maxItems: int)
      returns (articles: seq<Article>)
      modifies this
      ensures articles == news(ticker, start, end, maxItems)
      ensures log == old(log) + [FetchCall(ticker, start, end, maxItems)]
    {
      articles := news(ticker, start, end, maxItems);
      log := log + [FetchCall(ticker, start, end, maxItems)];
    }

    method Score(ticker: string, body: string) returns (content: Option<string>)
      modifies this
      ensures content == scoring(ticker, body)
      ensures log == old(log) + [ScoreCall(ticker, body)]
    {
      content := scoring(ticker, body);
      log := log + [ScoreCall(ticker, body)];
    }

    method Compact(ticker: string, lines: seq<Value>) returns (content: Option<string>)
      modifies this
      ensures content == compaction(ticker, lines)
      ensures log == old(log) + [CompactCall(ticker, lines)]
    {
      content := compaction(ticker, lines);
      log := log + [CompactCall(ticker, lines)];
    }

    /**
     * One attempt to render (`gerar_email_html`) and send (`enviar_email`)
     * one email. The `SendCall` is logged whatever the outcome, also when it
     * is `Crashed`: rendering raised and no SMTP connection was made.
     */
    method Send(user: User, to: string, analyses: seq<Analysis>, summaries: map<string, string>)
      returns (outcome: Delivery)
      modifies this
      ensures outcome == delivery(user, analyses, summaries)
      ensures log == old(log) + [SendCall(to, analyses, summaries)]
    {
      outcome := delivery(user, analyses, summaries);
      log := log + [SendCall(to, analyses, summaries)];
    }
  }

  /** How many times the news service was asked about `ticker`. */
  function FetchCount(log: seq<Call>, ticker: string): nat {
    if log == [] then 0
    else
      var last := log[|log| - 1];
      FetchCount(log[..|log| - 1], ticker) + (if last.FetchCall? && last.ticker == ticker then 1 else 0)
  }

  lemma {:induction false} FetchCountAppend(a: seq<Call>, b: seq<Call>, ticker: string)
    ensures FetchCount(a + b, ticker) == FetchCount(a, ticker) + FetchCount(b, ticker)
  {
    if b != [] {
      assert (a + b)[..|a + b| - 1] == a + b[..|b| - 1];
      FetchCountAppend(a, b[..|b| - 1], ticker);
    } else {
      assert a + b == a;
    }
  }

  /** No call to the news service. */
  predicate FetchFree(log: seq<Call>) {
    forall i :: 0 <= i < |log| ==> !log[i].FetchCall?
  }

  lemma {:induction false} FetchFreeCount(log: seq<Call>, ticker: string)
    requires FetchFree(log)
    ensures FetchCount(log, ticker) == 0
  {
    if log != [] {
      FetchFreeCount(log[..|log| - 1], ticker);
    }
  }

  /** Only email sends: no news, scoring or compaction call. */
  predicate OnlySends(log: seq<Call>) {
    forall i :: 0 <= i < |log| ==> log[i].SendCall?
  }

  /** A log of sends asks the news service about no ticker. */
  lemma OnlySendsFetchNothing(log: seq<Call>, ticker: string)
    requires OnlySends(log)
    ensures FetchCount(log, ticker) == 0
  {
    FetchFreeCount(log, ticker);
  }

  lemma {:induction false} OnlySendsAppend(a: seq<Call>, b: seq<Call>)
    requires OnlySends(a) && OnlySends(b)
    ensures OnlySends(a + b)
  {
    assert forall i :: 0 <= i < |b| ==> (a + b)[|a| + i] == b[i];
  }
}
