/** The log sink: records with a level, a message and the boolean flags of
    their metadata bag, and the one bulk operation the relay uses on it. */
module Logs {

  datatype Level = Info | Warn | Error

  /** A stored record. Timestamps and non-boolean metadata are not kept. */
  datatype LogRecord = LogRecord(level: Level, message: string, flags: map<string, bool>)

  function Record(level: Level, message: string): LogRecord {
    LogRecord(level, message, map[])
  }

  /** Number of records of the given level. */
  function CountLevel(logs: seq<LogRecord>, level: Level): nat {
    if |logs| == 0 then 0
    else (if logs[0].level == level then 1 else 0) + CountLevel(logs[1..], level)
  }

  lemma {:induction false} CountLevelAppend(a: seq<LogRecord>, b: seq<LogRecord>, level: Level)
    ensures CountLevel(a + b, level) == CountLevel(a, level) + CountLevel(b, level)
    decreases |a|
  {
    if |a| == 0 {
      assert a + b == b;
    } else {
      assert (a + b)[1..] == a[1..] + b;
      CountLevelAppend(a[1..], b, level);
    }
  }

  /** A single record counts once, at its own level. */
  lemma Single(x: LogRecord)
    ensures forall level: Level :: CountLevel([x], level) == if x.level == level then 1 else 0
  {
    assert [x][1..] == [];
  }

  /** `storage.createLog(x)` for each record of `records` in turn: the store
      grows by exactly those records, in order, and nothing it held changes. */
  function Write(store: seq<LogRecord>, records: seq<LogRecord>): (r: seq<LogRecord>)
    ensures store <= r && r[|store|..] == records
    ensures forall level: Level :: CountLevel(r, level) == CountLevel(store, level) + CountLevel(records, level)
    ensures multiset(r) == multiset(store) + multiset(records)
  {
    forall level: Level
      ensures CountLevel(store + records, level) == CountLevel(store, level) + CountLevel(records, level)
    {
      CountLevelAppend(store, records, level);
    }
    store + records
  }

  /** `storage.createLog(x)` once. */
  function WriteOne(store: seq<LogRecord>, x: LogRecord): (r: seq<LogRecord>)
    ensures store <= r && |r| == |store| + 1 && r[|store|] == x
    ensures forall level: Level :: CountLevel(r, level) == CountLevel(store, level) + (if x.level == level then 1 else 0)
    ensures multiset(r) == multiset(store) + multiset{x}
  {
    Single(x);
    Write(store, [x])
  }

  /** `after` is `before` followed by records of which exactly one is an
      error, and that one comes last. */
  predicate OneMoreError(before: seq<LogRecord>, after: seq<LogRecord>) {
    && before < after
    && after[|after| - 1].level == Error
    && CountLevel(after, Error) == CountLevel(before, Error) + 1
  }

  /** `storage.clearErrorLogs()`: drop every error record, keep the rest. */
  function ClearErrors(store: seq<LogRecord>): (r: seq<LogRecord>)
    ensures forall x :: x in r <==> x in store && x.level != Error
    ensures CountLevel(r, Error) == 0
    ensures CountLevel(r, Info) == CountLevel(store, Info)
    ensures CountLevel(r, Warn) == CountLevel(store, Warn)
    ensures forall x :: multiset(r)[x] == (if x.level == Error then 0 else multiset(store)[x])
    decreases |store|
  {
    if |store| == 0 then []
    else
      var rest := ClearErrors(store[1..]);
      assert store == [store[0]] + store[1..];
      assert multiset(store) == multiset{store[0]} + multiset(store[1..]);
      if store[0].level == Error then rest
      else
        assert multiset([store[0]] + rest) == multiset{store[0]} + multiset(rest);
        [store[0]] + rest
  }

  /** Clearing a store that holds no error record leaves it unchanged. */
  lemma {:induction false} ClearErrorsNoOp(store: seq<LogRecord>)
    requires CountLevel(store, Error) == 0
    ensures ClearErrors(store) == store
    decreases |store|
  {
    if |store| > 0 {
      ClearErrorsNoOp(store[1..]);
    }
  }

  /** Clearing is idempotent. */
  lemma ClearErrorsIdempotent(store: seq<LogRecord>)
    ensures ClearErrors(ClearErrors(store)) == ClearErrors(store)
  {
    ClearErrorsNoOp(ClearErrors(store));
  }
}
