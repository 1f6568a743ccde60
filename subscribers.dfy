/**
 * Phase 2 of main.py and the run as a whole: each subscriber is sent the
 * cached analyses of their own tickers, and `main` tallies the outcomes.
 */
module Subscribers {
  import opened Records
  import opened Strings
  import opened Oracles
  import opened Utils
  import opened Analyzer
  import opened Config
  import opened Pipeline

  // ---------------------------------------------------------------------------
  // processar_usuario
  // ---------------------------------------------------------------------------

  /**
   * What `processar_usuario` comes to: the pair (sucesso, num_noticias) it
   * returns, or an exception that propagates to the loop in `main`.
   */
  datatype UserOutcome = Returned(success: bool, count: nat) | Threw

  /** `cache_analises.get(t, [])` for each listed ticker, concatenated in the listed order. */
  function Gather(tickers: seq<string>, cache: map<string, seq<Analysis>>): seq<Analysis> {
    if tickers == [] then []
    else
      var last := tickers[|tickers| - 1];
      Gather(tickers[..|tickers| - 1], cache) + (if last in cache then cache[last] else [])
  }

  /** The tickers' non-empty executive summaries, keyed by ticker. */
  function Collected(tickers: seq<string>, summaries: map<string, string>): map<string, string> {
    if tickers == [] then map[]
    else
      var last := tickers[|tickers| - 1];
      var m := Collected(tickers[..|tickers| - 1], summaries);
      if last in summaries && summaries[last] != "" then m[last := summaries[last]] else m
  }

  /** `email` passes the check `not email or '@' not in email`. */
  predicate Emailable(email: Option<string>) {
    email.Some? && email.value != "" && '@' in email.value
  }

  /**
   * The outcome of `processar_usuario`. An empty cell (`None`, a NaN in the
   * loaded table) is truthy in Python and `'@' in` it raises; an empty or
   * `@`-less address returns (False, 0) straight away; without tickers the
   * subscriber gets an empty email and the call returns (True, 0), unless
   * rendering it raises, outside any `try`; otherwise the count is the number
   * of gathered analyses and success is whether the email went out: a failing
   * send returns False, and a failing render is caught and returns False.
   */
  function UserResult(svc: Services, user: User, analyses: map<string, seq<Analysis>>,
                      summaries: map<string, string>): UserOutcome
  {
    if user.email.None? then Threw
    else if !Emailable(user.email) then Returned(false, 0)
    else
      var tickers := ParseTickers(user.tickers);
      if tickers == [] then
        if svc.delivery(user, [], map[]) == Crashed then Threw else Returned(true, 0)
      else
        var all := Gather(tickers, analyses);
        Returned(svc.delivery(user, all, Collected(tickers, summaries)) == Delivered, |all|)
  }

  /** The calls `processar_usuario` makes: at most one render-and-send. */
  function UserCalls(user: User, analyses: map<string, seq<Analysis>>, summaries: map<string, string>): seq<Call> {
    if !Emailable(user.email) then []
    else
      var tickers := ParseTickers(user.tickers);
      if tickers == [] then [SendCall(user.email.value, [], map[])]
      else [SendCall(user.email.value, Gather(tickers, analyses), Collected(tickers, summaries))]
  }

  method GatherAnalyses(tickers: seq<string>, cache: map<string, seq<Analysis>>) returns (all: seq<Analysis>)
    ensures all == Gather(tickers, cache)
  {
    all := [];
    var i := 0;
    while i < |tickers|
      invariant 0 <= i <= |tickers|
      invariant all == Gather(tickers[..i], cache)
    {
      var t := tickers[i];
      TakeOneMore(tickers, i);
      assert tickers[..i + 1][..i] == tickers[..i];
      all := all + (if t in cache then cache[t] else []);
      i := i + 1;
    }
    assert tickers[..i] == tickers;
  }

  method CollectSummaries(tickers: seq<string>, summaries: map<string, string>) returns (m: map<string, string>)
    ensures m == Collected(tickers, summaries)
  {
    m := map[];
    var i := 0;
    while i < |tickers|
      invariant 0 <= i <= |tickers|
      invariant m == Collected(tickers[..i], summaries)
    {
      var t := tickers[i];
      TakeOneMore(tickers, i);
      assert tickers[..i + 1][..i] == tickers[..i];
      if t in summaries && summaries[t] != "" {
        m := m[t := summaries[t]];
      }
      i := i + 1;
    }
    assert tickers[..i] == tickers;
  }

  /** `processar_usuario(usuario, cache_analises, cache_resumos)`. */
  method ProcessUser(svc: Services, user: User, analyses: map<string, seq<Analysis>>,
                     summaries: map<string, string>)
    returns (outcome: UserOutcome)
    modifies svc
    ensures outcome == UserResult(svc, user, analyses, summaries)
    ensures svc.log == old(svc.log) + UserCalls(user, analyses, summaries)
  {
    if user.email.None? {
      return Threw;
    }
    var email := user.email.value;
    if email == "" || '@' !in email {
      return Returned(false, 0);
    }
    var tickers := ParseTickers(user.tickers);
    if tickers == [] {
      var sent := svc.Send(user, email, [], map[]);
      if sent == Crashed {
        return Threw;
      }
      return Returned(true, 0);
    }
    var all := GatherAnalyses(tickers, analyses);
    var collected := CollectSummaries(tickers, summaries);
    var sent := svc.Send(user, email, all, collected);
    outcome := Returned(sent == Delivered, |all|);
  }

  // ---------------------------------------------------------------------------
  // What processar_usuario promises
  // ---------------------------------------------------------------------------

  lemma {:induction false} GatherAppend(a: seq<string>, b: seq<string>, cache: map<string, seq<Analysis>>)
    ensures Gather(a + b, cache) == Gather(a, cache) + Gather(b, cache)
  {
    if b == [] {
      assert a + b == a;
    } else {
      var init := b[..|b| - 1];
      var last := b[|b| - 1];
      assert (a + b)[..|a + b| - 1] == a + init;
      GatherAppend(a, init, cache);
    }
  }

  /**
   * The delivered analyses are each listed ticker's cached slot in turn; a
   * ticker with no slot contributes nothing.
   */
  lemma GatherCons(t: string, rest: seq<string>, cache: map<string, seq<Analysis>>)
    ensures Gather([t] + rest, cache) == (if t in cache then cache[t] else []) + Gather(rest, cache)
  {
    GatherAppend([t], rest, cache);
    assert [t][..0] == [];
  }

  /** An analysis is delivered exactly when it sits in the slot of a listed ticker. */
  lemma {:induction false} GatherMembers(tickers: seq<string>, cache: map<string, seq<Analysis>>, a: Analysis)
    ensures a in Gather(tickers, cache)
        <==> exists i :: 0 <= i < |tickers| && tickers[i] in cache && a in cache[tickers[i]]
  {
    if tickers != [] {
      var init := tickers[..|tickers| - 1];
      var last := tickers[|tickers| - 1];
      GatherMembers(init, cache, a);
      if a in Gather(tickers, cache) && a !in Gather(init, cache) {
        assert last in cache && a in cache[last];
        assert tickers[|tickers| - 1] == last;
      }
      if i :| 0 <= i < |tickers| && tickers[i] in cache && a in cache[tickers[i]] {
        if i < |tickers| - 1 {
          assert init[i] == tickers[i];
        }
      }
    }
  }

  /** Exactly the listed tickers with a non-empty cached summary are collected, unchanged. */
  lemma {:induction false} CollectedSpec(tickers: seq<string>, summaries: map<string, string>, t: string)
    ensures t in Collected(tickers, summaries) <==> t in tickers && t in summaries && summaries[t] != ""
    ensures t in Collected(tickers, summaries) ==> Collected(tickers, summaries)[t] == summaries[t]
  {
    if tickers != [] {
      var init := tickers[..|tickers| - 1];
      CollectedSpec(init, summaries, t);
      assert tickers == init + [tickers[|tickers| - 1]];
    }
  }

  /**
   * Phase 2 makes no news, scoring or compaction call: a subscriber costs at
   * most one send, and exactly one when the address passes the check.
   */
  lemma UserCallsOnlySends(user: User, analyses: map<string, seq<Analysis>>, summaries: map<string, string>)
    ensures OnlySends(UserCalls(user, analyses, summaries))
    ensures |UserCalls(user, analyses, summaries)| == (if Emailable(user.email) then 1 else 0)
  {
  }

  /** An invalid address fails the subscriber without any send. */
  lemma InvalidEmailNoSend(svc: Services, user: User, analyses: map<string, seq<Analysis>>,
                           summaries: map<string, string>)
    requires !Emailable(user.email)
    ensures UserCalls(user, analyses, summaries) == []
    ensures user.email.Some? ==> UserResult(svc, user, analyses, summaries) == Returned(false, 0)
    ensures !(UserResult(svc, user, analyses, summaries).Returned? && UserResult(svc, user, analyses, summaries).success)
  {
  }

  /**
   * A subscriber without tickers is sent one empty email and succeeds with
   * zero news whether or not the send went through, unless rendering raises.
   */
  lemma NoTickersSucceeds(svc: Services, user: User, analyses: map<string, seq<Analysis>>,
                          summaries: map<string, string>)
    requires Emailable(user.email) && ParseTickers(user.tickers) == []
    ensures UserCalls(user, analyses, summaries) == [SendCall(user.email.value, [], map[])]
    ensures svc.delivery(user, [], map[]) != Crashed
        <==> UserResult(svc, user, analyses, summaries) == Returned(true, 0)
    ensures svc.delivery(user, [], map[]) == Crashed ==> UserResult(svc, user, analyses, summaries) == Threw
  {
  }

  /**
   * A subscriber with tickers is sent their gathered analyses and collected
   * summaries; the returned count is the number of analyses whatever the
   * delivery, and success means the email went out.
   */
  lemma WithTickersSends(svc: Services, user: User, analyses: map<string, seq<Analysis>>,
                         summaries: map<string, string>)
    requires Emailable(user.email) && ParseTickers(user.tickers) != []
    ensures var tickers := ParseTickers(user.tickers);
      && UserCalls(user, analyses, summaries)
         == [SendCall(user.email.value, Gather(tickers, analyses), Collected(tickers, summaries))]
      && UserResult(svc, user, analyses, summaries).Returned?
      && UserResult(svc, user, analyses, summaries).count == |Gather(tickers, analyses)|
      && (UserResult(svc, user, analyses, summaries).success
          <==> svc.delivery(user, Gather(tickers, analyses), Collected(tickers, summaries)) == Delivered)
  {
  }

  /**
   * The outcome depends on the caches only through the subscriber's own
   * tickers: caches that agree on those give the same outcome and calls.
   */
  lemma {:induction false} GatherLocal(tickers: seq<string>, a1: map<string, seq<Analysis>>, a2: map<string, seq<Analysis>>)
    requires forall t :: t in tickers ==> (t in a1 <==> t in a2) && (t in a1 ==> a1[t] == a2[t])
    ensures Gather(tickers, a1) == Gather(tickers, a2)
  {
    if tickers != [] {
      var init := tickers[..|tickers| - 1];
      assert forall t :: t in init ==> t in tickers;
      GatherLocal(init, a1, a2);
    }
  }

  lemma {:induction false} CollectedLocal(tickers: seq<string>, s1: map<string, string>, s2: map<string, string>)
    requires forall t :: t in tickers ==> (t in s1 <==> t in s2) && (t in s1 ==> s1[t] == s2[t])
    ensures Collected(tickers, s1) == Collected(tickers, s2)
  {
    if tickers != [] {
      var init := tickers[..|tickers| - 1];
      assert forall t :: t in init ==> t in tickers;
      CollectedLocal(init, s1, s2);
    }
  }

  lemma UserResultLocal(svc: Services, user: User, a1: map<string, seq<Analysis>>, s1: map<string, string>,
                        a2: map<string, seq<Analysis>>, s2: map<string, string>)
    requires forall t :: t in ParseTickers(user.tickers) ==> (t in a1 <==> t in a2) && (t in a1 ==> a1[t] == a2[t])
    requires forall t :: t in ParseTickers(user.tickers) ==> (t in s1 <==> t in s2) && (t in s1 ==> s1[t] == s2[t])
    ensures UserResult(svc, user, a1, s1) == UserResult(svc, user, a2, s2)
    ensures UserCalls(user, a1, s1) == UserCalls(user, a2, s2)
  {
    var tickers := ParseTickers(user.tickers);
    GatherLocal(tickers, a1, a2);
    CollectedLocal(tickers, s1, s2);
    SameInputsSameCalls(svc, user, a1, s1, a2, s2);
  }

  lemma SameInputsSameCalls(svc: Services, user: User, a1: map<string, seq<Analysis>>, s1: map<string, string>,
                            a2: map<string, seq<Analysis>>, s2: map<string, string>)
    requires Gather(ParseTickers(user.tickers), a1) == Gather(ParseTickers(user.tickers), a2)
    requires Collected(ParseTickers(user.tickers), s1) == Collected(ParseTickers(user.tickers), s2)
    ensures UserResult(svc, user, a1, s1) == UserResult(svc, user, a2, s2)
    ensures UserCalls(user, a1, s1) == UserCalls(user, a2, s2)
  {
  }

  // ---------------------------------------------------------------------------
  // The tally of main
  // ---------------------------------------------------------------------------

  /** `usuarios_sucesso`, `usuarios_erro` and `total_noticias`. */
  datatype Stats = Stats(succeeded: nat, failed: nat, delivered: nat)

  predicate Succeeds(o: UserOutcome) {
    o.Returned? && o.success
  }

  /**
   * The counters after the outcomes, in order: a success adds one success and
   * its news count, anything else (a False result or an exception) one error.
   */
  function Tally(outcomes: seq<UserOutcome>): (r: Stats)
    ensures r.succeeded + r.failed == |outcomes|
  {
    if outcomes == [] then Stats(0, 0, 0)
    else Counted(Tally(outcomes[..|outcomes| - 1]), outcomes[|outcomes| - 1])
  }

  /**
   * The counters after one more outcome: a success adds one success and its
   * news count, anything else one error.
   */
  function Counted(s: Stats, o: UserOutcome): Stats {
    if Succeeds(o) then Stats(s.succeeded + 1, s.failed, s.delivered + o.count)
    else Stats(s.succeeded, s.failed + 1, s.delivered)
  }

  /** The news count of every successful outcome, summed from the front. */
  function DeliveredBy(outcomes: seq<UserOutcome>): nat {
    if outcomes == [] then 0
    else (if Succeeds(outcomes[0]) then outcomes[0].count else 0) + DeliveredBy(outcomes[1..])
  }

  /** The number of successful outcomes, counted from the front. */
  function SuccessesIn(outcomes: seq<UserOutcome>): nat {
    if outcomes == [] then 0
    else (if Succeeds(outcomes[0]) then 1 else 0) + SuccessesIn(outcomes[1..])
  }

  /** Tallying is additive over any split of the subscribers. */
  lemma {:induction false} TallyAppend(a: seq<UserOutcome>, b: seq<UserOutcome>)
    ensures Tally(a + b).succeeded == Tally(a).succeeded + Tally(b).succeeded
    ensures Tally(a + b).failed == Tally(a).failed + Tally(b).failed
    ensures Tally(a + b).delivered == Tally(a).delivered + Tally(b).delivered
  {
    if b == [] {
      assert a + b == a;
    } else {
      assert (a + b)[..|a + b| - 1] == a + b[..|b| - 1];
      TallyAppend(a, b[..|b| - 1]);
    }
  }

  /**
   * `total_noticias` sums the counts of the successful subscribers only, and
   * `usuarios_sucesso` counts them.
   */
  lemma {:induction false} TallyCountsSuccesses(outcomes: seq<UserOutcome>)
    ensures Tally(outcomes).delivered == DeliveredBy(outcomes)
    ensures Tally(outcomes).succeeded == SuccessesIn(outcomes)
  {
    if outcomes != [] {
      var rest := outcomes[1..];
      TallyCountsSuccesses(rest);
      assert outcomes == [outcomes[0]] + rest;
      TallyAppend([outcomes[0]], rest);
      assert [outcomes[0]][..0] == [];
    }
  }

  /** The outcome of each subscriber, in sheet order. */
  function Outcomes(svc: Services, users: seq<User>, analyses: map<string, seq<Analysis>>,
                    summaries: map<string, string>): seq<UserOutcome> {
    if users == [] then []
    else
      Outcomes(svc, users[..|users| - 1], analyses, summaries)
        + [UserResult(svc, users[|users| - 1], analyses, summaries)]
  }

  /** The calls of the whole of Phase 2, in sheet order. */
  function Phase2Calls(users: seq<User>, analyses: map<string, seq<Analysis>>,
                       summaries: map<string, string>): seq<Call> {
    if users == [] then []
    else
      Phase2Calls(users[..|users| - 1], analyses, summaries)
        + UserCalls(users[|users| - 1], analyses, summaries)
  }

  /** Phase 2 only sends email, at most once per subscriber. */
  lemma {:induction false} Phase2OnlySends(users: seq<User>, analyses: map<string, seq<Analysis>>,
                                           summaries: map<string, string>)
    ensures OnlySends(Phase2Calls(users, analyses, summaries))
    ensures |Phase2Calls(users, analyses, summaries)| <= |users|
  {
    if users != [] {
      var init := users[..|users| - 1];
      var last := users[|users| - 1];
      Phase2OnlySends(init, analyses, summaries);
      UserCallsOnlySends(last, analyses, summaries);
      OnlySendsAppend(Phase2Calls(init, analyses, summaries), UserCalls(last, analyses, summaries));
    }
  }

  lemma DistributeStep(svc: Services, users: seq<User>, u: User, analyses: map<string, seq<Analysis>>,
                       summaries: map<string, string>)
    ensures Outcomes(svc, users + [u], analyses, summaries)
         == Outcomes(svc, users, analyses, summaries) + [UserResult(svc, u, analyses, summaries)]
    ensures Phase2Calls(users + [u], analyses, summaries)
         == Phase2Calls(users, analyses, summaries) + UserCalls(u, analyses, summaries)
  {
    assert (users + [u])[..|users + [u]| - 1] == users;
  }

  lemma TallyStep(outcomes: seq<UserOutcome>, o: UserOutcome)
    ensures Tally(outcomes + [o]) == Counted(Tally(outcomes), o)
  {
    assert (outcomes + [o])[..|outcomes + [o]| - 1] == outcomes;
  }

  /** One iteration of the loop of `main` over the subscribers. */
  method ServeUser(svc: Services, ghost base: seq<Call>, ghost done: seq<User>, user: User,
                   analyses: map<string, seq<Analysis>>, summaries: map<string, string>, stats: Stats)
    returns (r: Stats)
    requires stats == Tally(Outcomes(svc, done, analyses, summaries))
    requires svc.log == base + Phase2Calls(done, analyses, summaries)
    modifies svc
    ensures r == Tally(Outcomes(svc, done + [user], analyses, summaries))
    ensures svc.log == base + Phase2Calls(done + [user], analyses, summaries)
  {
    DistributeStep(svc, done, user, analyses, summaries);
    TallyStep(Outcomes(svc, done, analyses, summaries), UserResult(svc, user, analyses, summaries));
    LogStep(svc.log, base, Phase2Calls(done, analyses, summaries), UserCalls(user, analyses, summaries));
    var outcome := ProcessUser(svc, user, analyses, summaries);
    r := Counted(stats, outcome);
  }

  /**
   * The loop of `main` over the subscribers: every subscriber is counted
   * once, as a success or as an error.
   */
  method Distribute(svc: Services, users: seq<User>, analyses: map<string, seq<Analysis>>,
                    summaries: map<string, string>)
    returns (stats: Stats)
    modifies svc
    ensures stats == Tally(Outcomes(svc, users, analyses, summaries))
    ensures stats.succeeded + stats.failed == |users|
    ensures svc.log == old(svc.log) + Phase2Calls(users, analyses, summaries)
  {
    stats := Stats(0, 0, 0);
    var i := 0;
    while i < |users|
      invariant 0 <= i <= |users|
      invariant stats == Tally(Outcomes(svc, users[..i], analyses, summaries))
      invariant svc.log == old(svc.log) + Phase2Calls(users[..i], analyses, summaries)
    {
      TakeOneMore(users, i);
      stats := ServeUser(svc, old(svc.log), users[..i], users[i], analyses, summaries, stats);
      i := i + 1;
    }
    assert users[..i] == users;
    OutcomesLength(svc, users, analyses, summaries);
  }

  lemma {:induction false} OutcomesLength(svc: Services, users: seq<User>, analyses: map<string, seq<Analysis>>,
                                          summaries: map<string, string>)
    ensures |Outcomes(svc, users, analyses, summaries)| == |users|
  {
    if users != [] {
      OutcomesLength(svc, users[..|users| - 1], analyses, summaries);
    }
  }

  // ---------------------------------------------------------------------------
  // main
  // ---------------------------------------------------------------------------

  /** How `main` ends. */
  datatype RunOutcome =
    | ConfigInvalid(message: string)                            // validar_configuracoes raised
    | NoUsers                                                   // the subscriber table is empty
    | NoTickers                                                 // no subscriber lists a ticker
    | Completed(tickerCount: nat, userCount: nat, stats: Stats)

  /**
   * The Phase 1 parameters of a run: the search period, the default maximum
   * of the news search and the default cut of the top-N filter.
   */
  function RunParams(settings: Settings, start: string, end: string, loads: string -> Option<Scoring>): Params {
    Params(start, end, settings.maxNewsPerTicker, settings.topNRelevant, loads)
  }

  /**
   * `main()`, given the loaded settings, the period and the subscriber table:
   * the three early returns call no service; a completed run handles each
   * distinct ticker once in Phase 1, then every subscriber once in Phase 2,
   * counting each as a success or an error.
   */
  method Run(svc: Services, settings: Settings, start: string, end: string, users: seq<User>,
             loads: string -> Option<Scoring>)
    returns (outcome: RunOutcome, ghost order: seq<string>, ghost analyses: map<string, seq<Analysis>>,
             ghost summaries: map<string, string>)
    modifies svc
    ensures Validate(settings).Invalid? ==> outcome == ConfigInvalid(Validate(settings).message)
    ensures Validate(settings).Valid? && users == [] ==> outcome == NoUsers
    ensures Validate(settings).Valid? && users != [] && UniqueTickers(users) == {} ==> outcome == NoTickers
    ensures Validate(settings).Valid? && users != [] && UniqueTickers(users) != {} ==> outcome.Completed?
    ensures !outcome.Completed? ==> svc.log == old(svc.log)
    ensures outcome.Completed? ==>
      && Validate(settings).Valid? && users != [] && UniqueTickers(users) != {}
      && outcome.tickerCount == |UniqueTickers(users)| && outcome.userCount == |users|
      && StrictlySorted(order) && (forall t :: t in order <==> t in UniqueTickers(users))
      && (forall t :: t in analyses <==> t in UniqueTickers(users))
      && (forall t :: t in analyses ==> analyses[t] == Cached(svc, RunParams(settings, start, end, loads), t))
      && (forall t :: t in summaries <==> t in analyses && analyses[t] != [])
      && (forall t :: t in summaries ==> summaries[t] == CachedSummary(svc, RunParams(settings, start, end, loads), t))
      && outcome.stats == Tally(Outcomes(svc, users, analyses, summaries))
      && outcome.stats.succeeded + outcome.stats.failed == |users|
      && svc.log == old(svc.log) + Phase1Calls(svc, RunParams(settings, start, end, loads), order, analyses)
                                 + Phase2Calls(users, analyses, summaries)
    ensures outcome.Completed? ==> forall t :: FetchCount(svc.log, t)
                                          == FetchCount(old(svc.log), t) + (if t in UniqueTickers(users) then 1 else 0)
  {
    order, analyses, summaries := [], map[], map[];
    var validation := Validate(settings);
    if validation.Invalid? {
      return ConfigInvalid(validation.message), order, analyses, summaries;
    }
    if users == [] {
      return NoUsers, order, analyses, summaries;
    }
    var tickers := UniqueTickers(users);
    if tickers == {} {
      return NoTickers, order, analyses, summaries;
    }
    var p := RunParams(settings, start, end, loads);
    var cacheA: map<string, seq<Analysis>>, cacheS: map<string, string>;
    cacheA, cacheS, order := ProcessAllTickers(svc, p, tickers);
    analyses, summaries := cacheA, cacheS;
    ghost var mid := svc.log;
    var stats := Distribute(svc, users, cacheA, cacheS);
    LogStep(mid, old(svc.log), Phase1Calls(svc, p, order, cacheA), Phase2Calls(users, cacheA, cacheS));
    outcome := Completed(|tickers|, |users|, stats);
    CompletedRunFetches(svc, p, order, cacheA, users, cacheS, old(svc.log), svc.log, tickers);
  }

  lemma CompletedRunFetches(svc: Services, p: Params, order: seq<string>, analyses: map<string, seq<Analysis>>,
                            users: seq<User>, summaries: map<string, string>, base: seq<Call>, log: seq<Call>,
                            tickers: set<string>)
    requires StrictlySorted(order) && (forall t :: t in order <==> t in tickers)
    requires log == base + Phase1Calls(svc, p, order, analyses) + Phase2Calls(users, analyses, summaries)
    ensures forall t :: FetchCount(log, t) == FetchCount(base, t) + (if t in tickers then 1 else 0)
  {
    forall t ensures FetchCount(log, t) == FetchCount(base, t) + (if t in tickers then 1 else 0) {
      RunFetchesOnce(svc, p, order, analyses, users, summaries, base, t);
    }
  }

  /**
   * Over a completed run, `buscar_noticias` is called exactly once for each
   * distinct ticker and never for any other: Phase 1 asks once per ticker and
   * Phase 2 only sends email.
   */
  lemma RunFetchesOnce(svc: Services, p: Params, order: seq<string>, analyses: map<string, seq<Analysis>>,
                       users: seq<User>, summaries: map<string, string>, base: seq<Call>, t: string)
    requires StrictlySorted(order)
    ensures FetchCount(base + Phase1Calls(svc, p, order, analyses) + Phase2Calls(users, analyses, summaries), t)
         == FetchCount(base, t) + (if t in order then 1 else 0)
  {
    var phase1 := Phase1Calls(svc, p, order, analyses);
    var phase2 := Phase2Calls(users, analyses, summaries);
    FetchCountAppend(base + phase1, phase2, t);
    FetchCountAppend(base, phase1, t);
    Phase1FetchesOnce(svc, p, order, analyses, t);
    Phase2OnlySends(users, analyses, summaries);
    OnlySendsFetchNothing(phase2, t);
  }
}
