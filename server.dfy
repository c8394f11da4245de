/** The rate resolver of the HTTP service: `currentPrice`, a first-success
    fallback over the ordered provider list, and `receiveETHUSDPrice`, which
    validates the requested date, answers today from the providers alone and
    answers a past day from the store first, falling back to the providers and
    writing the answer back on a miss. */
module Resolver {
  import opened Domain
  import opened Storage

  /** The outcome of asking the providers in order until one answers. */
  datatype Attempt = Answered(index: nat, price: Price) | Exhausted

  /** The first provider, in list order, whose rate for `d` succeeds. */
  function FirstAnswer(ps: seq<Provider>, d: Day): (a: Attempt)
    ensures a.Answered? ==> a.index < |ps| && ps[a.index].rate(d) == Ok(a.price)
    ensures a.Answered? ==> forall j :: 0 <= j < a.index ==> ps[j].rate(d).Err?
    ensures a.Exhausted? <==> forall j :: 0 <= j < |ps| ==> ps[j].rate(d).Err?
    decreases |ps|
  {
    if ps == [] then Exhausted
    else if ps[0].rate(d).Ok? then Answered(0, ps[0].rate(d).value)
    else match FirstAnswer(ps[1..], d)
      case Answered(i, v) => Answered(i + 1, v)
      case Exhausted => Exhausted
  }

  /** A provider that succeeds after only failures is the first answer. */
  lemma FirstAnswerAt(ps: seq<Provider>, d: Day, i: nat)
    requires i < |ps| && ps[i].rate(d).Ok?
    requires forall j :: 0 <= j < i ==> ps[j].rate(d).Err?
    ensures FirstAnswer(ps, d) == Answered(i, ps[i].rate(d).value)
  {
  }

  /** The queries `0, 1, ..., n - 1` for day `d`, in that order. */
  function Probes(n: nat, d: Day): (q: seq<Query>)
    ensures |q| == n
    ensures forall k :: 0 <= k < n ==> q[k] == Query(k, d)
  {
    seq(n, k requires 0 <= k < n => Query(k, d))
  }

  /** The providers the fallback loop asks: every one up to and including the
      one that answers, or all of them when none does. */
  function Asked(ps: seq<Provider>, d: Day): (q: seq<Query>)
  {
    match FirstAnswer(ps, d)
    case Answered(i, _) => Probes(i + 1, d)
    case Exhausted => Probes(|ps|, d)
  }

  /** What `currentPrice` answers. */
  function Current(ps: seq<Provider>, d: Day): (r: Result<Price>)
    ensures r.Ok? ==> exists i :: 0 <= i < |ps| && ps[i].rate(d) == r
    ensures r.Err? <==> forall j :: 0 <= j < |ps| ==> ps[j].rate(d).Err?
    ensures r.Err? ==> r.error == AllProvidersFailed
    ensures |Asked(ps, d)| <= |ps|
    ensures r.Ok? ==> ps[|Asked(ps, d)| - 1].rate(d) == r
  {
    match FirstAnswer(ps, d)
    case Answered(_, v) => Ok(v)
    case Exhausted => Err(AllProvidersFailed)
  }

  /** `currentPrice` succeeds with `v` exactly when some provider answers `v`
      and every provider before it fails. */
  lemma CurrentIsFirstSuccess(ps: seq<Provider>, d: Day, v: Price)
    ensures Current(ps, d) == Ok(v) <==>
      exists i :: 0 <= i < |ps| && ps[i].rate(d) == Ok(v) && forall j :: 0 <= j < i ==> ps[j].rate(d).Err?
  {
    if i :| 0 <= i < |ps| && ps[i].rate(d) == Ok(v) && forall j :: 0 <= j < i ==> ps[j].rate(d).Err? {
      FirstAnswerAt(ps, d, i);
    }
  }

  /** The fallback stops at the first provider that answers: that answer is
      returned, and the providers asked are exactly those up to and including it. */
  lemma CurrentStopsAtFirstSuccess(ps: seq<Provider>, d: Day, i: nat)
    requires i < |ps| && ps[i].rate(d).Ok?
    requires forall j :: 0 <= j < i ==> ps[j].rate(d).Err?
    ensures Current(ps, d) == ps[i].rate(d)
    ensures |Asked(ps, d)| == i + 1
    ensures forall k :: 0 <= k < |Asked(ps, d)| ==> Asked(ps, d)[k] == Query(k, d)
  {
    FirstAnswerAt(ps, d, i);
  }

  /** `currentPrice` fails, with its one "after all try" error, exactly when every
      provider fails; in particular it fails on an empty list. */
  lemma CurrentFailsIffAllFail(ps: seq<Provider>, d: Day)
    ensures Current(ps, d).Err? <==> forall j :: 0 <= j < |ps| ==> ps[j].rate(d).Err?
    ensures Current(ps, d).Err? ==> Current(ps, d).error == AllProvidersFailed
    ensures ps == [] ==> Current(ps, d) == Err(AllProvidersFailed) && Asked(ps, d) == []
  {
  }

  /** How `receiveETHUSDPrice` classifies the requested date before any I/O. */
  datatype DateCheck = Rejected(err: Error) | ForToday(day: Day) | ForPast(day: Day)

  /** An empty date means today; a date that does not parse is refused with the
      parse error; a day after today is refused as a future date; otherwise it is
      today or a past day. */
  function CheckDate(date: string, today: Day, parse: string -> Option<Day>): (c: DateCheck)
    ensures date == "" ==> c == ForToday(today)
    ensures date != "" && parse(date).None? ==> c == Rejected(ParseError(date))
    ensures date != "" && parse(date).Some? ==>
      && (c.Rejected? <==> parse(date).value > today)
      && (c.Rejected? ==> c.err == FutureDate(date))
      && (c.ForToday? <==> parse(date).value == today)
      && (c.ForPast? <==> parse(date).value < today)
      && (!c.Rejected? ==> c.day == parse(date).value)
  {
    if date == "" then ForToday(today)
    else match parse(date)
      case None => Rejected(ParseError(date))
      case Some(d) =>
        if d > today then Rejected(FutureDate(date))
        else if d == today then ForToday(d)
        else ForPast(d)
  }

  /** What one resolution does: its answer, the store calls it makes, in order,
      and the provider queries it makes, in order. */
  datatype Effect = Effect(result: Result<Price>, ops: seq<StoreOp>, queries: seq<Query>)

  /** A past day: read the store under the "coingecko" key; on `NotFound` with
      providers configured, ask them in order, write the first answer back under
      the answering provider's own name and return it whatever the write does;
      when they all fail, return the last provider's error. */
  function Historical(ps: seq<Provider>, d: Day, records: map<Key, Price>, fault: Faults): (e: Effect)
    ensures 1 <= |e.ops| <= 2 && e.ops[0] == Read(EthUsdKey(Coingecko, d))
    ensures e.queries == [] <==> Lookup(records, fault, EthUsdKey(Coingecko, d)) != Err(NotFound) || ps == []
    ensures e.queries == [] ==> e.result == Lookup(records, fault, EthUsdKey(Coingecko, d)) && |e.ops| == 1
    ensures |e.queries| <= |ps|
    ensures forall k :: 0 <= k < |e.queries| ==> e.queries[k] == Query(k, d)
    ensures forall k :: 0 <= k < |e.queries| - 1 ==> ps[k].rate(d).Err?
    ensures e.queries != [] ==> e.result == ps[|e.queries| - 1].rate(d)
    ensures e.queries != [] && e.result.Err? ==> |e.queries| == |ps|
    ensures |e.ops| == 2 <==> e.queries != [] && e.result.Ok?
    ensures |e.ops| == 2 ==> e.ops[1] == Write(EthUsdKey(ps[|e.queries| - 1].name, d), e.result.value)
  {
    var k := EthUsdKey(Coingecko, d);
    var got := Lookup(records, fault, k);
    if got == Err(NotFound) && |ps| > 0 then
      match FirstAnswer(ps, d)
      case Answered(i, v) => Effect(Ok(v), [Read(k), Write(EthUsdKey(ps[i].name, d), v)], Asked(ps, d))
      case Exhausted => Effect(ps[|ps| - 1].rate(d), [Read(k)], Asked(ps, d))
    else Effect(got, [Read(k)], [])
  }

  /** What `receiveETHUSDPrice` does for a requested date string. */
  function Receive(date: string, today: Day, parse: string -> Option<Day>, ps: seq<Provider>,
                   records: map<Key, Price>, fault: Faults): (e: Effect)
    ensures CheckDate(date, today, parse).Rejected? ==>
      e.result == Err(CheckDate(date, today, parse).err) && e.ops == [] && e.queries == []
    ensures e.ops != [] <==> CheckDate(date, today, parse).ForPast?
    ensures !CheckDate(date, today, parse).Rejected? ==>
      forall k :: 0 <= k < |e.queries| ==> e.queries[k] == Query(k, CheckDate(date, today, parse).day)
    ensures e.result.Ok? ==>
      var d := CheckDate(date, today, parse).day;
      && !CheckDate(date, today, parse).Rejected?
      && (e.queries == [] ==> e.result == Lookup(records, fault, EthUsdKey(Coingecko, d)))
      && (e.queries != [] ==> |e.queries| <= |ps| && e.result == ps[|e.queries| - 1].rate(d))
  {
    match CheckDate(date, today, parse)
    case Rejected(err) => Effect(Err(err), [], [])
    case ForToday(d) => Effect(Current(ps, d), [], Asked(ps, d))
    case ForPast(d) => Historical(ps, d, records, fault)
  }

  /** Input checks come first: a date that does not parse or lies after today
      is refused with no store call and no provider query. */
  lemma RejectedDateMakesNoCalls(date: string, today: Day, parse: string -> Option<Day>, ps: seq<Provider>,
                                 records: map<Key, Price>, fault: Faults)
    requires date != ""
    requires parse(date).None? || parse(date).value > today
    ensures var e := Receive(date, today, parse, ps, records, fault);
      && e.ops == [] && e.queries == []
      && e.result == Err(if parse(date).None? then ParseError(date) else FutureDate(date))
  {
  }

  /** Today is answered by `currentPrice` alone: the store is neither read nor written. */
  lemma TodayBypassesStore(date: string, today: Day, parse: string -> Option<Day>, ps: seq<Provider>,
                           records: map<Key, Price>, fault: Faults)
    requires date == "" || parse(date) == Some(today)
    ensures var e := Receive(date, today, parse, ps, records, fault);
      e.ops == [] && e.result == Current(ps, today) && e.queries == Asked(ps, today)
  {
  }

  /** A past day reads the store under the "coingecko" key first; a stored price
      is returned with no provider query, and a read error other than `NotFound`
      is returned unchanged, also with no provider query. */
  lemma PastDayReadsStoreFirst(date: string, today: Day, parse: string -> Option<Day>, ps: seq<Provider>,
                                records: map<Key, Price>, fault: Faults, d: Day)
    requires date != "" && parse(date) == Some(d) && d < today
    ensures var e := Receive(date, today, parse, ps, records, fault);
      var got := Lookup(records, fault, EthUsdKey(Coingecko, d));
      && |e.ops| > 0 && e.ops[0] == Read(EthUsdKey(Coingecko, d))
      && (got.Ok? ==> e.result == got && e.queries == [] && e.ops == [Read(EthUsdKey(Coingecko, d))])
      && (got.Err? && got.error != NotFound ==> e.result == got && e.queries == [] && |e.ops| == 1)
  {
  }

  /** On a miss the first succeeding provider's price is returned, a write of it
      under that provider's own name is attempted, and the outcome of that write
      (accepted or refused) does not change the answer. */
  lemma MissFillsFromFirstAnswer(date: string, today: Day, parse: string -> Option<Day>, ps: seq<Provider>,
                                 records: map<Key, Price>, fault: Faults, d: Day, i: nat)
    requires date != "" && parse(date) == Some(d) && d < today
    requires Lookup(records, fault, EthUsdKey(Coingecko, d)) == Err(NotFound)
    requires i < |ps| && ps[i].rate(d).Ok?
    requires forall j :: 0 <= j < i ==> ps[j].rate(d).Err?
    ensures var e := Receive(date, today, parse, ps, records, fault);
      && e.result == ps[i].rate(d)
      && e.ops == [Read(EthUsdKey(Coingecko, d)), Write(EthUsdKey(ps[i].name, d), ps[i].rate(d).value)]
      && e.queries == Probes(i + 1, d)
  {
    FirstAnswerAt(ps, d, i);
  }

  /** On a miss where no provider answers, the answer is the last provider's own
      error (the loop reassigns the outer result); with no providers at all it is
      the store's `NotFound`. Nothing is written either way. */
  lemma MissWithoutAnswer(date: string, today: Day, parse: string -> Option<Day>, ps: seq<Provider>,
                          records: map<Key, Price>, fault: Faults, d: Day)
    requires date != "" && parse(date) == Some(d) && d < today
    requires Lookup(records, fault, EthUsdKey(Coingecko, d)) == Err(NotFound)
    requires forall j :: 0 <= j < |ps| ==> ps[j].rate(d).Err?
    ensures var e := Receive(date, today, parse, ps, records, fault);
      && e.ops == [Read(EthUsdKey(Coingecko, d))]
      && e.queries == Probes(|ps|, d)
      && (ps == [] ==> e.result == Err(NotFound))
      && (ps != [] ==> e.result == ps[|ps| - 1].rate(d) && e.result.Err?)
  {
  }

  /** Only a miss that some provider fills can change the store: every other
      resolution leaves the records exactly as they were. */
  lemma OnlyAFilledMissWrites(date: string, today: Day, parse: string -> Option<Day>, ps: seq<Provider>,
                              records: map<Key, Price>, fault: Faults)
    ensures var e := Receive(date, today, parse, ps, records, fault);
      var c := CheckDate(date, today, parse);
      || Apply(records, e.ops, fault) == records
      || (&& c.ForPast?
          && Lookup(records, fault, EthUsdKey(Coingecko, c.day)) == Err(NotFound)
          && FirstAnswer(ps, c.day).Answered?
          && fault(e.ops[1]).None?)
  {
    var e := Receive(date, today, parse, ps, records, fault);
    if |e.ops| < 2 {
      ApplyReadsOnly(records, e.ops, fault);
    } else if fault(e.ops[1]).Some? {
      assert e.ops == e.ops[..1] + [e.ops[1]];
      ApplySnoc(records, e.ops[..1], e.ops[1], fault);
      ApplyReadsOnly(records, e.ops[..1], fault);
    }
  }

  /** Reads use the fixed "coingecko" key while write-backs use the answering
      provider's name. After a genuine miss that a provider filled with a write
      the store accepted, asking again for the same day gives the same price,
      and it is a store hit, with no provider query, exactly when the provider
      that answered is named "coingecko". */
  lemma RepeatIsHitOnlyForCoingecko(date: string, today: Day, parse: string -> Option<Day>, ps: seq<Provider>,
                                    records: map<Key, Price>, fault: Faults, d: Day, i: nat)
    requires date != "" && parse(date) == Some(d) && d < today
    requires EthUsdKey(Coingecko, d) !in records && fault(Read(EthUsdKey(Coingecko, d))).None?
    requires i < |ps| && ps[i].rate(d).Ok?
    requires forall j :: 0 <= j < i ==> ps[j].rate(d).Err?
    requires fault(Write(EthUsdKey(ps[i].name, d), ps[i].rate(d).value)).None?
    ensures var first := Receive(date, today, parse, ps, records, fault);
      var second := Receive(date, today, parse, ps, Apply(records, first.ops, fault), fault);
      && first.result == second.result == ps[i].rate(d)
      && (second.queries == [] <==> ps[i].name == Coingecko)
  {
    FirstAnswerAt(ps, d, i);
    var k := EthUsdKey(Coingecko, d);
    var v := ps[i].rate(d).value;
    var first := Receive(date, today, parse, ps, records, fault);
    assert first.ops == [Read(k), Write(EthUsdKey(ps[i].name, d), v)];
    var after := Apply(records, first.ops, fault);
    assert first.ops[1..] == [Write(EthUsdKey(ps[i].name, d), v)];
    assert after == Apply(records, [Write(EthUsdKey(ps[i].name, d), v)], fault);
    ApplySnoc(records, [], Write(EthUsdKey(ps[i].name, d), v), fault);
    assert [] + [Write(EthUsdKey(ps[i].name, d), v)] == [Write(EthUsdKey(ps[i].name, d), v)];
    assert after == records[EthUsdKey(ps[i].name, d) := v];
    if ps[i].name != Coingecko {
      assert k !in after;
      assert Receive(date, today, parse, ps, after, fault).queries == Probes(i + 1, d);
    }
  }

  /** The HTTP service's state: the store and the ordered provider list. */
  class Server {
    const store: Store
    const providers: seq<Provider>

    constructor (store: Store, providers: seq<Provider>)
      ensures this.store == store && this.providers == providers
    {
      this.store := store;
      this.providers := providers;
    }

    /** `currentPrice`: ask the providers in order and return the first answer. */
    method CurrentPrice(d: Day) returns (r: Result<Price>, ghost queries: seq<Query>)
      ensures r == Current(providers, d)
      ensures queries == Asked(providers, d)
    {
      queries := [];
      var i := 0;
      while i < |providers|
        invariant 0 <= i <= |providers|
        invariant forall j :: 0 <= j < i ==> providers[j].rate(d).Err?
        invariant queries == Probes(i, d)
      {
        var v := providers[i].rate(d);
        queries := queries + [Query(i, d)];
        if v.Ok? {
          FirstAnswerAt(providers, d, i);
          assert queries == Probes(i + 1, d);
          return v, queries;
        }
        i := i + 1;
      }
      r := Err(AllProvidersFailed);
    }

    /** `receiveETHUSDPrice`: validate the date, answer today from the providers,
        answer a past day from the store or, on a miss, from the providers with a
        write-back whose failure is swallowed. */
    method ReceiveEthUsdPrice(date: string, today: Day, parse: string -> Option<Day>)
      returns (r: Result<Price>, ghost queries: seq<Query>)
      modifies store
      ensures var e := Receive(date, today, parse, providers, old(store.records), store.fault);
        && r == e.result
        && queries == e.queries
        && store.log == old(store.log) + e.ops
        && store.records == Apply(old(store.records), e.ops, store.fault)
    {
      match CheckDate(date, today, parse)
      case Rejected(err) =>
        return Err(err), [];
      case ForToday(d) =>
        r, queries := CurrentPrice(d);
      case ForPast(d) =>
        var k := EthUsdKey(Coingecko, d);
        r := store.GetTokenPrice(k);
        queries := [];
        if r == Err(NotFound) && |providers| > 0 {
          var i := 0;
          while i < |providers|
            invariant 0 <= i <= |providers|
            invariant forall j :: 0 <= j < i ==> providers[j].rate(d).Err?
            invariant i == 0 ==> r == Err(NotFound)
            invariant i > 0 ==> r == providers[i - 1].rate(d)
            invariant queries == Probes(i, d)
            invariant store.log == old(store.log) + [Read(k)]
            invariant store.records == old(store.records)
          {
            r := providers[i].rate(d);
            queries := queries + [Query(i, d)];
            if r.Ok? {
              FirstAnswerAt(providers, d, i);
              assert queries == Probes(i + 1, d);
              // A refused write is only logged: the answer stands.
              var saveErr := store.SaveTokenPrice(EthUsdKey(providers[i].name, d), r.value);
              ApplySnoc(old(store.records), [Read(k)], Write(EthUsdKey(providers[i].name, d), r.value), store.fault);
              AppendAssoc(old(store.log), [Read(k)], [Write(EthUsdKey(providers[i].name, d), r.value)]);
              assert [Read(k)] + [Write(EthUsdKey(providers[i].name, d), r.value)]
                  == [Read(k), Write(EthUsdKey(providers[i].name, d), r.value)];
              return r, queries;
            }
            i := i + 1;
          }
        }
    }
  }
}
