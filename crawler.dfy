/** The backfill crawler: range validation, the per-provider day-by-day walk
    that saves every answer, the daily catch-up job and the branch structure of
    the command's `run`. */
module Crawler {
  import opened Domain
  import opened Storage

  /** An inclusive range of days. */
  datatype Range = Range(from: Day, to: Day)

  /** `validateTime`: an empty from-time means today; an empty to-time means
      today with no order check; a given to-time is clamped to today and must
      not then lie before the from-time; a string that does not parse is
      refused with its parse error (the from-time is parsed first). */
  function ValidateTime(fromS: string, toS: string, today: Day, parse: string -> Option<Day>): (r: Result<Range>)
    ensures fromS != "" && parse(fromS).None? ==> r == Err(ParseError(fromS))
    ensures (fromS == "" || parse(fromS).Some?) && toS != "" && parse(toS).None? ==> r == Err(ParseError(toS))
    ensures r.Ok? ==> r.value.from == (if fromS == "" then today else parse(fromS).value)
    ensures r.Ok? ==> r.value.to <= today
    ensures r.Ok? && toS == "" ==> r.value.to == today
    ensures r.Ok? && toS != "" ==>
      && parse(toS).Some?
      && r.value.to == (if parse(toS).value > today then today else parse(toS).value)
      && r.value.from <= r.value.to
    ensures toS == "" && (fromS == "" || parse(fromS).Some?) ==> r.Ok?
    ensures (fromS == "" || parse(fromS).Some?) && toS != "" && parse(toS).Some? ==>
      var from := if fromS == "" then today else parse(fromS).value;
      var to := if parse(toS).value > today then today else parse(toS).value;
      from <= to ==> r == Ok(Range(from, to))
    ensures r == Err(RangeOrder) <==>
      && (fromS == "" || parse(fromS).Some?)
      && toS != "" && parse(toS).Some?
      && (if parse(toS).value > today then today else parse(toS).value)
         < (if fromS == "" then today else parse(fromS).value)
  {
    if fromS != "" && parse(fromS).None? then Err(ParseError(fromS))
    else
      var from := if fromS != "" then parse(fromS).value else today;
      if toS == "" then Ok(Range(from, today))
      else if parse(toS).None? then Err(ParseError(toS))
      else
        var to := if parse(toS).value > today then today else parse(toS).value;
        if to < from then Err(RangeOrder) else Ok(Range(from, to))
  }

  /** With no to-time there is no order check: a from-time after today is
      accepted, and the range it gives is empty. */
  lemma FromAfterTodayAcceptedWithoutTo(fromS: string, today: Day, parse: string -> Option<Day>)
    requires fromS != "" && parse(fromS).Some? && parse(fromS).value > today
    ensures ValidateTime(fromS, "", today, parse) == Ok(Range(parse(fromS).value, today))
    ensures Span(parse(fromS).value, today) == 0
  {
  }

  /** The number of days in the inclusive range `from..to`. */
  function Span(from: Day, to: Day): nat
  {
    if from > to then 0 else to - from + 1
  }

  /** What a stretch of crawling does: the first error, if it stopped on one,
      the store calls it made and the provider queries it made, in order. */
  datatype Trace = Trace(err: Option<Error>, ops: seq<StoreOp>, queries: seq<Query>)

  /** No call at all. */
  const Idle: Trace := Trace(None, [], [])

  /** One stretch of crawling followed by another: calls in order, and the
      first stretch's error, if any, is the one reported. */
  function Then(a: Trace, b: Trace): Trace
  {
    Trace(if a.err.Some? then a.err else b.err, a.ops + b.ops, a.queries + b.queries)
  }

  lemma ThenAssoc(a: Trace, b: Trace, c: Trace)
    ensures Then(Then(a, b), c) == Then(a, Then(b, c))
  {
  }

  lemma ThenIdle(a: Trace)
    ensures Then(a, Idle) == a && Then(Idle, a) == a
  {
  }

  /** The write a provider's answer for day `t` turns into. */
  function SaveOf(p: Provider, t: Day): StoreOp
    requires p.rate(t).Ok?
  {
    Write(EthUsdKey(p.name, t), p.rate(t).value)
  }

  /** Day `t` of provider `p` goes through: the query answers and the store
      accepts the write of that answer. */
  predicate DayOk(p: Provider, t: Day, fault: Faults)
  {
    p.rate(t).Ok? && fault(SaveOf(p, t)).None?
  }

  /** The walk of provider `p` (at list position `j`) from day `t` to day `to`:
      query, save, next day; the first failed query or refused save ends it. */
  function Walk(p: Provider, j: nat, t: Day, to: Day, fault: Faults): (w: Trace)
    ensures |w.ops| <= |w.queries| <= Span(t, to)
    ensures w.err.None? ==> |w.ops| == |w.queries| == Span(t, to)
    decreases Span(t, to)
  {
    if t > to then Idle
    else match p.rate(t)
      case Err(e) => Trace(Some(e), [], [Query(j, t)])
      case Ok(v) =>
        match fault(Write(EthUsdKey(p.name, t), v))
        case Some(e) => Trace(Some(e), [Write(EthUsdKey(p.name, t), v)], [Query(j, t)])
        case None =>
          Then(Trace(None, [Write(EthUsdKey(p.name, t), v)], [Query(j, t)]), Walk(p, j, t + 1, to, fault))
  }

  /** A walk asks for consecutive days from its first one, at most once per
      day of the range, and saves at most one day fewer than it asks for. */
  lemma {:induction false} WalkQueries(p: Provider, j: nat, t: Day, to: Day, fault: Faults)
    ensures var w := Walk(p, j, t, to, fault);
      && |w.queries| <= Span(t, to)
      && (forall k :: 0 <= k < |w.queries| ==> w.queries[k] == Query(j, t + k))
      && |w.ops| <= |w.queries| <= |w.ops| + 1
    decreases Span(t, to)
  {
    if t <= to && DayOk(p, t, fault) {
      var w := Walk(p, j, t, to, fault);
      var rest := Walk(p, j, t + 1, to, fault);
      WalkQueries(p, j, t + 1, to, fault);
      forall k | 1 <= k < |w.queries|
        ensures w.queries[k] == Query(j, t + k)
      {
        assert w.queries[k] == rest.queries[k - 1];
      }
    }
  }

  /** The walk's store calls are the saves of its first days, in day order,
      each of a price the provider answered. */
  lemma {:induction false} WalkSaves(p: Provider, j: nat, t: Day, to: Day, fault: Faults)
    ensures var w := Walk(p, j, t, to, fault);
      forall s :: t <= s < t + |w.ops| ==> p.rate(s).Ok? && w.ops[s - t] == SaveOf(p, s)
    decreases Span(t, to)
  {
    if t <= to && DayOk(p, t, fault) {
      var w := Walk(p, j, t, to, fault);
      var rest := Walk(p, j, t + 1, to, fault);
      WalkSaves(p, j, t + 1, to, fault);
      forall s | t < s < t + |w.ops|
        ensures p.rate(s).Ok? && w.ops[s - t] == SaveOf(p, s)
      {
        assert w.ops[s - t] == rest.ops[s - (t + 1)];
      }
    }
  }

  /** A walk succeeds exactly when every day of the range is answered and
      saved; it then asks for and saves each day once. */
  lemma {:induction false} WalkSucceedsIff(p: Provider, j: nat, t: Day, to: Day, fault: Faults)
    ensures var w := Walk(p, j, t, to, fault);
      && (w.err.None? <==> forall s :: t <= s <= to ==> DayOk(p, s, fault))
      && (w.err.None? ==> |w.queries| == |w.ops| == Span(t, to))
    decreases Span(t, to)
  {
    if t <= to {
      if DayOk(p, t, fault) {
        WalkSucceedsIff(p, j, t + 1, to, fault);
      } else {
        assert !(forall s :: t <= s <= to ==> DayOk(p, s, fault));
      }
    }
  }

  /** A failed walk stops at its last query: every earlier day went through,
      that day did not, and the error is the provider's or the refused save's. */
  lemma {:induction false} WalkStops(p: Provider, j: nat, t: Day, to: Day, fault: Faults)
    ensures var w := Walk(p, j, t, to, fault);
      w.err.Some? ==>
        && |w.queries| > 0
        && (forall s :: t <= s < t + |w.queries| - 1 ==> DayOk(p, s, fault))
        && !DayOk(p, t + |w.queries| - 1, fault)
        && (|w.ops| == |w.queries| <==> p.rate(t + |w.queries| - 1).Ok?)
        && w.err == Some(if p.rate(t + |w.queries| - 1).Err? then p.rate(t + |w.queries| - 1).error
                         else fault(SaveOf(p, t + |w.queries| - 1)).value)
    decreases Span(t, to)
  {
    if t <= to && DayOk(p, t, fault) {
      var w := Walk(p, j, t, to, fault);
      var rest := Walk(p, j, t + 1, to, fault);
      WalkStops(p, j, t + 1, to, fault);
      if rest.err.Some? {
        assert t + |w.queries| - 1 == (t + 1) + |rest.queries| - 1;
      }
    }
  }

  /** The walks of providers `j, j + 1, ...` one after the other; the error
      reported is the first one in list order. */
  function Crawl(ps: seq<Provider>, j: nat, from: Day, to: Day, fault: Faults): (c: Trace)
    requires j <= |ps|
    ensures |c.ops| <= |c.queries| <= (|ps| - j) * Span(from, to)
    ensures c.err.None? ==> |c.ops| == |c.queries| == (|ps| - j) * Span(from, to)
    decreases |ps| - j
  {
    if j == |ps| then Idle
    else
      OneMoreProvider(|ps| - (j + 1), Span(from, to));
      Then(Walk(ps[j], j, from, to, fault), Crawl(ps, j + 1, from, to, fault))
  }

  /** One more provider walks the range once more. */
  lemma OneMoreProvider(n: nat, span: nat)
    ensures (n + 1) * span == span + n * span
  {
  }

  /** The range crawl succeeds exactly when every provider goes through every
      day; its error is the first failing provider's, in list order. */
  lemma {:induction false} CrawlSucceedsIff(ps: seq<Provider>, j: nat, from: Day, to: Day, fault: Faults)
    requires j <= |ps|
    ensures Crawl(ps, j, from, to, fault).err.None? <==>
      forall i, s :: j <= i < |ps| && from <= s <= to ==> DayOk(ps[i], s, fault)
    ensures Crawl(ps, j, from, to, fault).err.Some? ==>
      exists i :: j <= i < |ps| && Crawl(ps, j, from, to, fault).err == Walk(ps[i], i, from, to, fault).err
        && forall i' :: j <= i' < i ==> Walk(ps[i'], i', from, to, fault).err.None?
    decreases |ps| - j
  {
    if j < |ps| {
      CrawlSucceedsIff(ps, j + 1, from, to, fault);
      WalkSucceedsIff(ps[j], j, from, to, fault);
      var c := Crawl(ps, j, from, to, fault);
      if Walk(ps[j], j, from, to, fault).err.None? {
        if c.err.Some? {
          var i :| j + 1 <= i < |ps| && c.err == Walk(ps[i], i, from, to, fault).err
            && forall i' :: j + 1 <= i' < i ==> Walk(ps[i'], i', from, to, fault).err.None?;
          assert forall i' :: j <= i' < i ==> Walk(ps[i'], i', from, to, fault).err.None?;
        }
      } else {
        assert !(forall s :: from <= s <= to ==> DayOk(ps[j], s, fault));
      }
    }
  }

  /** Providers are independent: the queries the range crawl makes to provider
      `i` are exactly those of `i`'s own walk, whatever the other providers do. */
  lemma {:induction false} CrawlQueriesAreOwnWalk(ps: seq<Provider>, j: nat, from: Day, to: Day, fault: Faults, i: nat, s: Day)
    requires j <= |ps|
    ensures Query(i, s) in Crawl(ps, j, from, to, fault).queries <==>
      j <= i < |ps| && Query(i, s) in Walk(ps[i], i, from, to, fault).queries
    decreases |ps| - j
  {
    if j < |ps| {
      CrawlQueriesAreOwnWalk(ps, j + 1, from, to, fault, i, s);
      var w := Walk(ps[j], j, from, to, fault);
      WalkQueries(ps[j], j, from, to, fault);
      if Query(i, s) in w.queries {
        var k :| 0 <= k < |w.queries| && w.queries[k] == Query(i, s);
        assert i == j;
      }
    }
  }

  /** The saves the range crawl makes for provider `i` are exactly those of
      `i`'s own walk (providers with distinct names). */
  lemma {:induction false} CrawlSavesAreOwnWalk(ps: seq<Provider>, j: nat, from: Day, to: Day, fault: Faults, i: nat, op: StoreOp)
    requires j <= |ps|
    requires i < |ps| && op.Write? && op.key.provider == ps[i].name
    requires forall a, b :: 0 <= a < b < |ps| ==> ps[a].name != ps[b].name
    ensures op in Crawl(ps, j, from, to, fault).ops <==> j <= i && op in Walk(ps[i], i, from, to, fault).ops
    decreases |ps| - j
  {
    if j < |ps| {
      CrawlSavesAreOwnWalk(ps, j + 1, from, to, fault, i, op);
      var w := Walk(ps[j], j, from, to, fault);
      WalkSaves(ps[j], j, from, to, fault);
      if op in w.ops {
        var k :| 0 <= k < |w.ops| && w.ops[k] == op;
        assert ps[j].rate(from + k).Ok? && w.ops[(from + k) - from] == SaveOf(ps[j], from + k);
      }
    }
  }

  /** A provider that goes through every day of the range is queried and saved
      for every day, exactly `to - from + 1` times each, even when another
      provider's walk fails. */
  lemma HealthyProviderIsWalkedFully(ps: seq<Provider>, from: Day, to: Day, fault: Faults, i: nat)
    requires i < |ps|
    requires forall s :: from <= s <= to ==> DayOk(ps[i], s, fault)
    ensures var w := Walk(ps[i], i, from, to, fault);
      && |w.queries| == |w.ops| == Span(from, to)
      && forall s :: from <= s <= to ==>
           && ps[i].rate(s).Ok?
           && Query(i, s) in Crawl(ps, 0, from, to, fault).queries
           && SaveOf(ps[i], s) in Crawl(ps, 0, from, to, fault).ops
  {
    var w := Walk(ps[i], i, from, to, fault);
    WalkQueries(ps[i], i, from, to, fault);
    WalkSaves(ps[i], i, from, to, fault);
    WalkSucceedsIff(ps[i], i, from, to, fault);
    forall s | from <= s <= to
      ensures ps[i].rate(s).Ok?
      ensures Query(i, s) in Crawl(ps, 0, from, to, fault).queries
      ensures SaveOf(ps[i], s) in Crawl(ps, 0, from, to, fault).ops
    {
      assert DayOk(ps[i], s, fault);
      assert w.queries[s - from] == Query(i, s);
      CrawlQueriesAreOwnWalk(ps, 0, from, to, fault, i, s);
      assert w.ops[s - from] == SaveOf(ps[i], s);
      CrawlOpsContainWalk(ps, 0, from, to, fault, i);
    }
  }

  /** Every store call of provider `i`'s walk is among the crawl's calls. */
  lemma {:induction false} CrawlOpsContainWalk(ps: seq<Provider>, j: nat, from: Day, to: Day, fault: Faults, i: nat)
    requires j <= i < |ps|
    ensures forall op :: op in Walk(ps[i], i, from, to, fault).ops ==> op in Crawl(ps, j, from, to, fault).ops
    decreases |ps| - j
  {
    if j < i {
      CrawlOpsContainWalk(ps, j + 1, from, to, fault, i);
    }
  }

  /** A failed walk makes the range call fail, and leaves what it already
      saved: the records written for that provider's days before the failure
      are all in the store afterwards, whatever the other providers did. */
  lemma CrawlKeepsEarlierSaves(ps: seq<Provider>, from: Day, to: Day, fault: Faults,
                               records: map<Key, Price>, i: nat, s: Day)
    requires i < |ps|
    requires var w := Walk(ps[i], i, from, to, fault); w.err.Some? && from <= s < from + |w.queries| - 1
    ensures Crawl(ps, 0, from, to, fault).err.Some?
    ensures EthUsdKey(ps[i].name, s) in Apply(records, Crawl(ps, 0, from, to, fault).ops, fault)
  {
    var w := Walk(ps[i], i, from, to, fault);
    WalkQueries(ps[i], i, from, to, fault);
    WalkSaves(ps[i], i, from, to, fault);
    WalkStops(ps[i], i, from, to, fault);
    CrawlSucceedsIff(ps, 0, from, to, fault);
    assert !DayOk(ps[i], from + |w.queries| - 1, fault);
    assert DayOk(ps[i], s, fault);
    assert w.ops[s - from] == SaveOf(ps[i], s);
    CrawlOpsContainWalk(ps, 0, from, to, fault, i);
    ApplyHasWritten(records, Crawl(ps, 0, from, to, fault).ops, fault, EthUsdKey(ps[i].name, s), ps[i].rate(s).value);
  }

  /** The daily job body for `day` over providers `j, j + 1, ...`: query and
      save each in list order; a refused save is only logged, a failed query
      ends the job. The store's answers do not enter into it. */
  function Daily(ps: seq<Provider>, j: nat, day: Day): (w: Trace)
    requires j <= |ps|
    ensures |w.ops| <= |w.queries| <= |ps| - j
    ensures w.err.None? ==> |w.ops| == |w.queries| == |ps| - j
    decreases |ps| - j
  {
    if j == |ps| then Idle
    else match ps[j].rate(day)
      case Err(e) => Trace(Some(e), [], [Query(j, day)])
      case Ok(v) =>
        Then(Trace(None, [Write(EthUsdKey(ps[j].name, day), v)], [Query(j, day)]), Daily(ps, j + 1, day))
  }

  /** The daily job asks the providers in list order and saves every answer
      whether or not the store accepts it; it goes through the whole list
      exactly when every query answers, and otherwise stops right after the
      first failed query, leaving the later providers unasked. */
  lemma {:induction false} DailyShape(ps: seq<Provider>, j: nat, day: Day)
    requires j <= |ps|
    ensures var w := Daily(ps, j, day);
      && |w.ops| <= |w.queries| <= |ps| - j
      && (forall k :: 0 <= k < |w.queries| ==> w.queries[k] == Query(j + k, day))
      && (forall i :: j <= i < j + |w.ops| ==> ps[i].rate(day).Ok? && w.ops[i - j] == SaveOf(ps[i], day))
      && (w.err.None? <==> forall i :: j <= i < |ps| ==> ps[i].rate(day).Ok?)
      && (w.err.None? ==> |w.queries| == |w.ops| == |ps| - j)
      && (w.err.Some? ==>
            && 0 < |w.queries|
            && |w.ops| == |w.queries| - 1
            && ps[j + |w.queries| - 1].rate(day).Err?
            && w.err == Some(ps[j + |w.queries| - 1].rate(day).error))
    decreases |ps| - j
  {
    if j < |ps| && ps[j].rate(day).Ok? {
      var w := Daily(ps, j, day);
      var rest := Daily(ps, j + 1, day);
      DailyShape(ps, j + 1, day);
      assert w.ops == [SaveOf(ps[j], day)] + rest.ops;
      assert w.queries == [Query(j, day)] + rest.queries;
      forall k | 1 <= k < |w.queries|
        ensures w.queries[k] == Query(j + k, day)
      {
        assert w.queries[k] == rest.queries[k - 1];
      }
      forall i | j < i < j + |w.ops|
        ensures ps[i].rate(day).Ok? && w.ops[i - j] == SaveOf(ps[i], day)
      {
        assert w.ops[i - j] == rest.ops[i - (j + 1)];
      }
      if rest.err.Some? {
        assert j + |w.queries| - 1 == (j + 1) + |rest.queries| - 1;
      }
    }
  }

  /** What `run` ends in: an error returned, the range crawl alone done, the
      daily job armed (the process then waits for an interrupt), or a panic
      because the daily job could not be armed. */
  datatype RunOutcome = Failed(err: Error) | RangeDone | DailyArmed(jobTime: string) | Panicked(err: Error)

  /** The branch structure of `run`, given the validated range and the crawl's error. */
  function RunOutcomeOf(fromS: string, toS: string, jobTime: string, today: Day, parse: string -> Option<Day>,
                        isClock: string -> bool, ps: seq<Provider>, fault: Faults): (o: RunOutcome)
    ensures ValidateTime(fromS, toS, today, parse).Err? ==>
      o == Failed(Wrapped("invalid time", ValidateTime(fromS, toS, today, parse).error))
    ensures o == RangeDone <==>
      (toS != "" && ValidateTime(fromS, toS, today, parse).Ok? &&
       var rg := ValidateTime(fromS, toS, today, parse).value;
       forall i, s :: 0 <= i < |ps| && rg.from <= s <= rg.to ==> DayOk(ps[i], s, fault))
    ensures o.DailyArmed? <==>
      (toS == "" && isClock(jobTime) && ValidateTime(fromS, toS, today, parse).Ok? &&
       var rg := ValidateTime(fromS, toS, today, parse).value;
       forall i, s :: 0 <= i < |ps| && rg.from <= s <= rg.to ==> DayOk(ps[i], s, fault))
    ensures o.Panicked? ==> toS == "" && !isClock(jobTime) && o.err == BadClock(jobTime)
    ensures ValidateTime(fromS, toS, today, parse).Ok? ==>
      var rg := ValidateTime(fromS, toS, today, parse).value;
      var c := Crawl(ps, 0, rg.from, rg.to, fault);
      && (c.err.Some? ==> o == Failed(Wrapped("failed to get token price", c.err.value)))
      && (c.err.None? && toS == "" && !isClock(jobTime) ==> o == Panicked(BadClock(jobTime)))
  {
    match ValidateTime(fromS, toS, today, parse)
    case Err(e) => Failed(Wrapped("invalid time", e))
    case Ok(rg) =>
      CrawlSucceedsIff(ps, 0, rg.from, rg.to, fault);
      var c := Crawl(ps, 0, rg.from, rg.to, fault);
      if c.err.Some? then Failed(Wrapped("failed to get token price", c.err.value))
      else if toS != "" then RangeDone
      else if isClock(jobTime) then DailyArmed(jobTime)
      else Panicked(BadClock(jobTime))
  }

  /** One provider's goroutine body in `crawlTokenPriceWithTimeRange`. */
  method CrawlProvider(p: Provider, j: nat, from: Day, to: Day, store: Store)
    returns (err: Option<Error>, ghost queries: seq<Query>)
    modifies store
    ensures var w := Walk(p, j, from, to, store.fault);
      && err == w.err
      && queries == w.queries
      && store.log == old(store.log) + w.ops
      && store.records == Apply(old(store.records), w.ops, store.fault)
  {
    ghost var done := Idle;
    var t := from;
    ThenIdle(Walk(p, j, t, to, store.fault));
    while t <= to
      invariant from <= t || from > to
      invariant from <= to ==> t <= to + 1
      invariant done.err.None?
      invariant Walk(p, j, from, to, store.fault) == Then(done, Walk(p, j, t, to, store.fault))
      invariant store.log == old(store.log) + done.ops
      invariant store.records == Apply(old(store.records), done.ops, store.fault)
      decreases Span(t, to)
    {
      var price := p.rate(t);
      if price.Err? {
        AppendNothing(done.ops);
        done := Then(done, Trace(Some(price.error), [], [Query(j, t)]));
        return Some(price.error), done.queries;
      }
      var k := EthUsdKey(p.name, t);
      var saveErr := store.SaveTokenPrice(k, price.value);
      ApplySnoc(old(store.records), done.ops, Write(k, price.value), store.fault);
      AppendAssoc(old(store.log), done.ops, [Write(k, price.value)]);
      if saveErr.Some? {
        done := Then(done, Trace(saveErr, [Write(k, price.value)], [Query(j, t)]));
        return saveErr, done.queries;
      }
      ThenAssoc(done, Trace(None, [Write(k, price.value)], [Query(j, t)]), Walk(p, j, t + 1, to, store.fault));
      done := Then(done, Trace(None, [Write(k, price.value)], [Query(j, t)]));
      t := t + 1;
    }
    ThenIdle(done);
    err, queries := None, done.queries;
  }

  /** `crawlTokenPriceWithTimeRange`: every provider's walk, in list order, each
      stopping at its own first failure; the call fails if any walk failed. */
  method CrawlTokenPriceWithTimeRange(ps: seq<Provider>, from: Day, to: Day, store: Store)
    returns (err: Option<Error>, ghost queries: seq<Query>)
    modifies store
    ensures var c := Crawl(ps, 0, from, to, store.fault);
      && (err.None? <==> c.err.None?)
      && (err.Some? ==> err == Some(Wrapped("failed to get token price", c.err.value)))
      && queries == c.queries
      && store.log == old(store.log) + c.ops
      && store.records == Apply(old(store.records), c.ops, store.fault)
  {
    ghost var done := Idle;
    var first: Option<Error> := None;
    var j := 0;
    ThenIdle(Crawl(ps, 0, from, to, store.fault));
    while j < |ps|
      invariant 0 <= j <= |ps|
      invariant Crawl(ps, 0, from, to, store.fault) == Then(done, Crawl(ps, j, from, to, store.fault))
      invariant first == done.err
      invariant store.log == old(store.log) + done.ops
      invariant store.records == Apply(old(store.records), done.ops, store.fault)
    {
      ghost var w := Walk(ps[j], j, from, to, store.fault);
      var e, q := CrawlProvider(ps[j], j, from, to, store);
      ThenAssoc(done, w, Crawl(ps, j + 1, from, to, store.fault));
      ApplyConcat(old(store.records), done.ops, w.ops, store.fault);
      AppendAssoc(old(store.log), done.ops, w.ops);
      done := Then(done, w);
      if first.None? {
        first := e;
      }
      j := j + 1;
    }
    ThenIdle(done);
    err := if first.Some? then Some(Wrapped("failed to get token price", first.value)) else None;
    queries := done.queries;
  }

  /** The body of the daily job: for the day just passed (`now - 1`), query and
      save every provider in list order; a refused save is ignored, a failed
      query returns from the job. */
  method DailyJob(ps: seq<Provider>, now: Day, store: Store) returns (ghost queries: seq<Query>)
    modifies store
    ensures var w := Daily(ps, 0, now - 1);
      && queries == w.queries
      && store.log == old(store.log) + w.ops
      && store.records == Apply(old(store.records), w.ops, store.fault)
  {
    var day := now - 1;
    ghost var done := Idle;
    var j := 0;
    ThenIdle(Daily(ps, 0, day));
    while j < |ps|
      invariant 0 <= j <= |ps|
      invariant done.err.None?
      invariant Daily(ps, 0, day) == Then(done, Daily(ps, j, day))
      invariant store.log == old(store.log) + done.ops
      invariant store.records == Apply(old(store.records), done.ops, store.fault)
    {
      var price := ps[j].rate(day);
      if price.Err? {
        AppendNothing(done.ops);
        done := Then(done, Trace(Some(price.error), [], [Query(j, day)]));
        return done.queries;
      }
      var k := EthUsdKey(ps[j].name, day);
      // A refused save is only logged: the job goes on with the next provider.
      var saveErr := store.SaveTokenPrice(k, price.value);
      ApplySnoc(old(store.records), done.ops, Write(k, price.value), store.fault);
      AppendAssoc(old(store.log), done.ops, [Write(k, price.value)]);
      ThenAssoc(done, Trace(None, [Write(k, price.value)], [Query(j, day)]), Daily(ps, j + 1, day));
      done := Then(done, Trace(None, [Write(k, price.value)], [Query(j, day)]));
      j := j + 1;
    }
    ThenIdle(done);
    queries := done.queries;
  }

  /** `run` after the providers and the store are set up: validate the range;
      with a to-time, crawl the range and stop; without one, crawl up to today
      and, only if that succeeded, arm the daily job at `jobTime`, which must be
      a well-formed HH:MM:SS clock time. */
  method Run(fromS: string, toS: string, jobTime: string, today: Day, parse: string -> Option<Day>,
             isClock: string -> bool, ps: seq<Provider>, store: Store)
    returns (o: RunOutcome, ghost queries: seq<Query>)
    modifies store
    ensures o == RunOutcomeOf(fromS, toS, jobTime, today, parse, isClock, ps, store.fault)
    ensures ValidateTime(fromS, toS, today, parse).Err? ==>
      queries == [] && store.log == old(store.log) && store.records == old(store.records)
    ensures ValidateTime(fromS, toS, today, parse).Ok? ==>
      var rg := ValidateTime(fromS, toS, today, parse).value;
      var c := Crawl(ps, 0, rg.from, rg.to, store.fault);
      && queries == c.queries
      && store.log == old(store.log) + c.ops
      && store.records == Apply(old(store.records), c.ops, store.fault)
  {
    var rg := ValidateTime(fromS, toS, today, parse);
    if rg.Err? {
      return Failed(Wrapped("invalid time", rg.error)), [];
    }
    var err;
    err, queries := CrawlTokenPriceWithTimeRange(ps, rg.value.from, rg.value.to, store);
    if err.Some? {
      return Failed(err.value), queries;
    }
    if toS != "" {
      return RangeDone, queries;
    }
    // `crawlTokenPriceDaily` refuses a malformed clock time before arming, and
    // `run` panics on that error.
    if !isClock(jobTime) {
      return Panicked(BadClock(jobTime)), queries;
    }
    o := DailyArmed(jobTime);
  }
}
