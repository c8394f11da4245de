/** The price store boundary: `SaveTokenPrice` and `GetTokenPrice` over a map
    of records keyed by (token, currency, provider, day), with failures injected
    by an oracle. */
module Storage {
  import opened Domain

  /** One call made on the store. */
  datatype StoreOp = Read(key: Key) | Write(key: Key, price: Price)

  /** The injected failure, if any, that the store reports for an operation. */
  type Faults = StoreOp -> Option<Error>

  /** What `GetTokenPrice` answers: the injected failure if there is one,
      otherwise the stored price, otherwise the `NotFound` sentinel. */
  function Lookup(records: map<Key, Price>, fault: Faults, k: Key): (r: Result<Price>)
    ensures r.Ok? ==> k in records && r.value == records[k]
    ensures fault(Read(k)).None? ==> (r.Ok? <==> k in records)
    ensures fault(Read(k)).None? && r.Err? ==> r.error == NotFound
    ensures fault(Read(k)).Some? ==> r == Err(fault(Read(k)).value)
  {
    match fault(Read(k))
    case Some(e) => Err(e)
    case None => if k in records then Ok(records[k]) else Err(NotFound)
  }

  /** The records after one store call: a read changes nothing, a write that
      the store does not refuse upserts its key (the latest write wins). */
  function StepRecords(records: map<Key, Price>, op: StoreOp, fault: Faults): map<Key, Price>
  {
    match op
    case Read(_) => records
    case Write(k, v) => if fault(op).None? then records[k := v] else records
  }

  /** The records after a sequence of store calls, in order. */
  function Apply(records: map<Key, Price>, ops: seq<StoreOp>, fault: Faults): map<Key, Price>
    decreases |ops|
  {
    if ops == [] then records else Apply(StepRecords(records, ops[0], fault), ops[1..], fault)
  }

  /** Running two batches of calls one after the other is running their concatenation. */
  lemma {:induction false} ApplyConcat(records: map<Key, Price>, a: seq<StoreOp>, b: seq<StoreOp>, fault: Faults)
    ensures Apply(records, a + b, fault) == Apply(Apply(records, a, fault), b, fault)
    decreases |a|
  {
    if a == [] {
      assert a + b == b;
    } else {
      assert (a + b)[0] == a[0] && (a + b)[1..] == a[1..] + b;
      ApplyConcat(StepRecords(records, a[0], fault), a[1..], b, fault);
    }
  }

  /** One more call after a batch: apply it to the batch's records. */
  lemma ApplySnoc(records: map<Key, Price>, ops: seq<StoreOp>, op: StoreOp, fault: Faults)
    ensures Apply(records, ops + [op], fault) == StepRecords(Apply(records, ops, fault), op, fault)
  {
    ApplyConcat(records, ops, [op], fault);
    assert [op][1..] == [];
  }

  /** Sequence facts about logs, stated as lemmas so that a method extending a
      log does not have to unfold the calls it is built from. */
  lemma AppendAssoc<T>(a: seq<T>, b: seq<T>, c: seq<T>)
    ensures (a + b) + c == a + (b + c)
  {
  }

  lemma AppendNothing<T>(a: seq<T>)
    ensures a + [] == a
  {
  }

  /** Records are never deleted: every key present before is present after. */
  lemma {:induction false} ApplyKeepsKeys(records: map<Key, Price>, ops: seq<StoreOp>, fault: Faults)
    ensures records.Keys <= Apply(records, ops, fault).Keys
    decreases |ops|
  {
    if ops != [] {
      ApplyKeepsKeys(StepRecords(records, ops[0], fault), ops[1..], fault);
    }
  }

  /** Every write the store accepted leaves a record under its key. */
  lemma {:induction false} ApplyHasWritten(records: map<Key, Price>, ops: seq<StoreOp>, fault: Faults, k: Key, v: Price)
    requires Write(k, v) in ops && fault(Write(k, v)).None?
    ensures k in Apply(records, ops, fault)
    decreases |ops|
  {
    if ops[0] == Write(k, v) {
      ApplyKeepsKeys(StepRecords(records, ops[0], fault), ops[1..], fault);
    } else {
      ApplyHasWritten(StepRecords(records, ops[0], fault), ops[1..], fault, k, v);
    }
  }

  /** Calls that contain no write leave the records as they were. */
  lemma {:induction false} ApplyReadsOnly(records: map<Key, Price>, ops: seq<StoreOp>, fault: Faults)
    requires forall i :: 0 <= i < |ops| ==> ops[i].Read?
    ensures Apply(records, ops, fault) == records
    decreases |ops|
  {
    if ops != [] {
      ApplyReadsOnly(records, ops[1..], fault);
    }
  }

  /** The store. `records` is its content, `fault` the injected failures and
      `log` every call made on it, in order. */
  class Store {
    var records: map<Key, Price>
    const fault: Faults
    ghost var log: seq<StoreOp>

    constructor (records: map<Key, Price>, fault: Faults)
      ensures this.records == records && this.fault == fault && log == []
    {
      this.records := records;
      this.fault := fault;
      log := [];
    }

    /** `GetTokenPrice`: reads one record; the records do not change. */
    method GetTokenPrice(k: Key) returns (r: Result<Price>)
      modifies this`log
      ensures log == old(log) + [Read(k)]
      ensures r == Lookup(records, fault, k)
    {
      log := log + [Read(k)];
      match fault(Read(k))
      case Some(e) => r := Err(e);
      case None => r := if k in records then Ok(records[k]) else Err(NotFound);
    }

    /** `SaveTokenPrice`: upserts one record unless the store refuses the write. */
    method SaveTokenPrice(k: Key, v: Price) returns (err: Option<Error>)
      modifies this`records, this`log
      ensures log == old(log) + [Write(k, v)]
      ensures err == fault(Write(k, v))
      ensures records == StepRecords(old(records), Write(k, v), fault)
      ensures err.None? ==> k in records && records[k] == v
      ensures err.Some? ==> records == old(records)
    {
      log := log + [Write(k, v)];
      err := fault(Write(k, v));
      if err.None? {
        records := records[k := v];
      }
    }
  }
}
