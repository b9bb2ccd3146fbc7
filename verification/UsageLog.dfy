// The request log of CC Switch and its aggregation into day x app x model buckets
// (cc_usage_reporter/cc_usage_reporter/database.py).
module UsageLog {
  import opened Options
  import opened Text

  /* ---------- data ---------- */

  // One row of proxy_request_logs; None is SQL NULL. Costs are whole micro-dollars, and a
  // cost text that does not parse is None as well: the reader treats both as zero.
  datatype LogRow = LogRow(
    createdAt: Option<int>,
    appType: Option<string>,
    model: Option<string>,
    requestModel: Option<string>,
    status: Option<int>,
    inputTokens: Option<int>,
    outputTokens: Option<int>,
    cacheReadTokens: Option<int>,
    cacheCreationTokens: Option<int>,
    cost: Option<int>)

  // The `app_types` and `only_success` settings.
  datatype Filter = Filter(appTypes: seq<string>, onlySuccess: bool)

  // The counters of a bucket.
  datatype Usage = Usage(
    requests: int, successes: int, input: int, output: int, cacheRead: int, cacheCreation: int, cost: int)

  // The dictionary key of the aggregation loop: the raw column values of a row.
  datatype RawKey = RawKey(day: int, app: Option<string>, model: string, requestModel: Option<string>)

  // The identifying fields a finished bucket carries.
  datatype BucketId = BucketId(day: int, app: string, model: string, requestModel: Option<string>)

  datatype Bucket = Bucket(id: BucketId, usage: Usage)

  const NO_USAGE := Usage(0, 0, 0, 0, 0, 0, 0)

  function Plus(a: Usage, b: Usage): Usage {
    Usage(a.requests + b.requests, a.successes + b.successes, a.input + b.input, a.output + b.output,
          a.cacheRead + b.cacheRead, a.cacheCreation + b.cacheCreation, a.cost + b.cost)
  }

  /* ---------- reading one row ---------- */

  function OrZero(n: Option<int>): int {
    if n.Some? then n.value else 0
  }

  predicate IsSuccess(r: LogRow) {
    200 <= OrZero(r.status) < 300
  }

  // The WHERE clause, the missing-timestamp test and the success filter.
  predicate Qualifies(f: Filter, r: LogRow) {
    && (f.appTypes != [] ==> r.appType.Some? && r.appType.value in f.appTypes)
    && r.createdAt.Some?
    && (f.onlySuccess ==> IsSuccess(r))
  }

  // UTC calendar day; dates are represented by their day number.
  function UtcDay(epochSeconds: int): int {
    epochSeconds / 86400
  }

  function NonEmpty(s: Option<string>): Option<string> {
    if s == Some("") then None else s
  }

  // An empty or missing request_model falls back to the raw model column, not to the
  // repaired one, so it can stay missing.
  function KeyOf(r: LogRow): RawKey
    requires r.createdAt.Some?
  {
    RawKey(UtcDay(r.createdAt.value),
           r.appType,
           if NonEmpty(r.model).Some? then r.model.value else "unknown",
           if NonEmpty(r.requestModel).Some? then r.requestModel else r.model)
  }

  // Without a request model of its own, a row is counted under its model's name exactly if the
  // raw model column is not empty: the fallback does not see the repaired name.
  lemma RequestModelFallsBackExactly(r: LogRow)
    requires r.createdAt.Some? && NonEmpty(r.requestModel) == None
    ensures KeyOf(r).requestModel == Some(KeyOf(r).model) <==> NonEmpty(r.model).Some?
  {
  }

  function RowUsage(r: LogRow): Usage {
    Usage(1, if IsSuccess(r) then 1 else 0, OrZero(r.inputTokens), OrZero(r.outputTokens),
          OrZero(r.cacheReadTokens), OrZero(r.cacheCreationTokens), OrZero(r.cost))
  }

  function IdOf(k: RawKey): BucketId {
    BucketId(k.day, if NonEmpty(k.app).Some? then k.app.value else "unknown", k.model, k.requestModel)
  }

  /* ---------- specification: a bucket is the total of the rows of its key ---------- */

  predicate HasKey(f: Filter, r: LogRow, k: RawKey) {
    Qualifies(f, r) && KeyOf(r) == k
  }

  function RowsOf(f: Filter, log: seq<LogRow>, k: RawKey): (rows: seq<LogRow>)
    ensures |rows| <= |log|
  {
    if log == [] then []
    else
      var before, r := log[..|log| - 1], log[|log| - 1];
      if HasKey(f, r, k) then RowsOf(f, before, k) + [r] else RowsOf(f, before, k)
  }

  function Total(rows: seq<LogRow>): (u: Usage)
    ensures u.requests == |rows|
    ensures 0 <= u.successes <= u.requests
  {
    if rows == [] then NO_USAGE else Plus(Total(rows[..|rows| - 1]), RowUsage(rows[|rows| - 1]))
  }

  // The keys of the log in order of first appearance: Python dictionaries keep insertion order.
  function FirstSeen(f: Filter, log: seq<LogRow>): seq<RawKey> {
    if log == [] then []
    else
      var before, r := log[..|log| - 1], log[|log| - 1];
      var keys := FirstSeen(f, before);
      if Qualifies(f, r) && KeyOf(r) !in keys then keys + [KeyOf(r)] else keys
  }

  function BucketOf(f: Filter, log: seq<LogRow>, k: RawKey): Bucket {
    Bucket(IdOf(k), Total(RowsOf(f, log, k)))
  }

  function BucketsOf(f: Filter, log: seq<LogRow>, keys: seq<RawKey>): (bs: seq<Bucket>)
    ensures |bs| == |keys|
    ensures forall i :: 0 <= i < |keys| ==> bs[i] == BucketOf(f, log, keys[i])
  {
    seq(|keys|, i requires 0 <= i < |keys| => BucketOf(f, log, keys[i]))
  }

  predicate SortLe(a: Bucket, b: Bucket) {
    || a.id.day < b.id.day
    || (a.id.day == b.id.day
        && if a.id.app == b.id.app then TextLe(a.id.model, b.id.model) else TextLe(a.id.app, b.id.app))
  }

  // Stable insertion: a bucket goes after those that compare equal to it.
  function Insert(sorted: seq<Bucket>, b: Bucket): (s: seq<Bucket>)
    ensures |s| == |sorted| + 1
    ensures multiset(s) == multiset(sorted) + multiset{b}
  {
    if sorted == [] || SortLe(sorted[|sorted| - 1], b) then sorted + [b]
    else
      assert sorted == sorted[..|sorted| - 1] + [sorted[|sorted| - 1]];
      Insert(sorted[..|sorted| - 1], b) + [sorted[|sorted| - 1]]
  }

  function Sorted(bs: seq<Bucket>): (s: seq<Bucket>)
    ensures |s| == |bs|
    ensures multiset(s) == multiset(bs)
  {
    if bs == [] then []
    else
      assert bs == bs[..|bs| - 1] + [bs[|bs| - 1]];
      Insert(Sorted(bs[..|bs| - 1]), bs[|bs| - 1])
  }

  function Buckets(f: Filter, log: seq<LogRow>): seq<Bucket> {
    Sorted(BucketsOf(f, log, FirstSeen(f, log)))
  }

  /* ---------- the aggregation loop ---------- */

  // The entry of `k` in the loop's dictionary after the rows of `log`.
  ghost predicate EntryFor(f: Filter, log: seq<LogRow>, buckets: map<RawKey, Usage>, k: RawKey) {
    if RowsOf(f, log, k) == [] then k !in buckets
    else k in buckets && buckets[k] == Total(RowsOf(f, log, k))
  }

  ghost predicate Aggregates(f: Filter, log: seq<LogRow>, order: seq<RawKey>, buckets: map<RawKey, Usage>) {
    && order == FirstSeen(f, log)
    && (forall k :: EntryFor(f, log, buckets, k))
  }

  method ReadDailyModelUsage(f: Filter, rows: seq<LogRow>) returns (result: seq<Bucket>)
    ensures result == Buckets(f, rows)
  {
    hide IsSuccess, RowUsage, Plus, KeyOf;
    var buckets: map<RawKey, Usage>, order: seq<RawKey> := map[], [];
    for i := 0 to |rows|
      invariant Aggregates(f, rows[..i], order, buckets)
    {
      var r := rows[i];
      assert rows[..i + 1] == rows[..i] + [r];
      if f.appTypes != [] && !(r.appType.Some? && r.appType.value in f.appTypes) {
        AggregatesSkip(f, rows[..i], r, order, buckets);
        continue;
      }
      if r.createdAt.None? {
        AggregatesSkip(f, rows[..i], r, order, buckets);
        continue;
      }
      if f.onlySuccess && !IsSuccess(r) {
        AggregatesSkip(f, rows[..i], r, order, buckets);
        continue;
      }
      AggregatesRow(f, rows[..i], r, order, buckets);
      ghost var before := buckets;
      var key := KeyOf(r);
      if key !in buckets {
        buckets := buckets[key := NO_USAGE];
        order := order + [key];
      }
      buckets := buckets[key := Plus(buckets[key], RowUsage(r))];
      assert key !in before ==> buckets == before[key := Plus(NO_USAGE, RowUsage(r))];
    }
    assert rows[..|rows|] == rows;
    AggregatesDone(f, rows, order, buckets);
    result := Sorted(BucketList(order, buckets));
  }

  // The dictionary's values, in insertion order.
  function BucketList(order: seq<RawKey>, buckets: map<RawKey, Usage>): seq<Bucket>
    requires forall k :: k in order ==> k in buckets
  {
    seq(|order|, i requires 0 <= i < |order| => Bucket(IdOf(order[i]), buckets[order[i]]))
  }

  lemma AggregatesDone(f: Filter, log: seq<LogRow>, order: seq<RawKey>, buckets: map<RawKey, Usage>)
    requires Aggregates(f, log, order, buckets)
    ensures forall k :: k in order ==> k in buckets
    ensures BucketList(order, buckets) == BucketsOf(f, log, FirstSeen(f, log))
  {
    FirstSeenKeys(f, log);
    forall k | k in order ensures k in buckets && buckets[k] == Total(RowsOf(f, log, k)) {
      assert EntryFor(f, log, buckets, k);
    }
  }

  lemma AggregatesSkip(f: Filter, log: seq<LogRow>, r: LogRow, order: seq<RawKey>, buckets: map<RawKey, Usage>)
    requires Aggregates(f, log, order, buckets)
    requires !Qualifies(f, r)
    ensures Aggregates(f, log + [r], order, buckets)
  {
    FirstSeenSnoc(f, log, r);
    forall k ensures EntryFor(f, log + [r], buckets, k) {
      RowsOfSnoc(f, log, r, k);
      assert EntryFor(f, log, buckets, k);
    }
  }

  lemma AggregatesRow(f: Filter, log: seq<LogRow>, r: LogRow, order: seq<RawKey>, buckets: map<RawKey, Usage>)
    requires Aggregates(f, log, order, buckets)
    requires Qualifies(f, r)
    ensures
      var key := KeyOf(r);
      var sum := if key in buckets then buckets[key] else NO_USAGE;
      Aggregates(f, log + [r], if key in buckets then order else order + [key],
                 buckets[key := Plus(sum, RowUsage(r))])
  {
    var key := KeyOf(r);
    assert EntryFor(f, log, buckets, key);
    FirstSeenSnoc(f, log, r);
    FirstSeenKeys(f, log);
    TotalSnoc(RowsOf(f, log, key), r);
    var sum := if key in buckets then buckets[key] else NO_USAGE;
    var updated := buckets[key := Plus(sum, RowUsage(r))];
    forall k ensures EntryFor(f, log + [r], updated, k) {
      RowsOfSnoc(f, log, r, k);
      assert EntryFor(f, log, buckets, k);
    }
  }

  // What one more row changes.
  lemma RowsOfSnoc(f: Filter, log: seq<LogRow>, r: LogRow, k: RawKey)
    ensures RowsOf(f, log + [r], k)
         == if HasKey(f, r, k) then RowsOf(f, log, k) + [r] else RowsOf(f, log, k)
  {
    assert (log + [r])[..|log|] == log;
  }

  lemma FirstSeenSnoc(f: Filter, log: seq<LogRow>, r: LogRow)
    ensures FirstSeen(f, log + [r])
         == if Qualifies(f, r) && KeyOf(r) !in FirstSeen(f, log) then FirstSeen(f, log) + [KeyOf(r)]
            else FirstSeen(f, log)
  {
    assert (log + [r])[..|log|] == log;
  }

  lemma TotalSnoc(rows: seq<LogRow>, r: LogRow)
    ensures Total(rows + [r]) == Plus(Total(rows), RowUsage(r))
  {
    assert (rows + [r])[..|rows|] == rows;
  }

  /* ---------- growth of the log ---------- */

  lemma {:induction false} RowsOfConcat(f: Filter, a: seq<LogRow>, b: seq<LogRow>, k: RawKey)
    ensures RowsOf(f, a + b, k) == RowsOf(f, a, k) + RowsOf(f, b, k)
  {
    if b == [] {
      assert a + b == a;
    } else {
      RowsOfConcat(f, a, b[..|b| - 1], k);
      assert (a + b)[..|a + b| - 1] == a + b[..|b| - 1];
    }
  }

  lemma PlusAssociative(a: Usage, b: Usage, c: Usage)
    ensures Plus(Plus(a, b), c) == Plus(a, Plus(b, c))
  {
  }

  lemma PlusNothing(a: Usage)
    ensures Plus(a, NO_USAGE) == a
  {
  }

  lemma PlusSwap(a: Usage, b: Usage, c: Usage)
    ensures Plus(Plus(a, b), c) == Plus(Plus(a, c), b)
  {
  }

  lemma {:induction false} TotalConcat(a: seq<LogRow>, b: seq<LogRow>)
    ensures Total(a + b) == Plus(Total(a), Total(b))
  {
    if b == [] {
      assert a + b == a;
    } else {
      var front, last := b[..|b| - 1], b[|b| - 1];
      assert a + b == (a + front) + [last];
      TotalSnoc(a + front, last);
      TotalConcat(a, front);
      PlusAssociative(Total(a), Total(front), RowUsage(last));
    }
  }

  // The aggregate of a longer log is the key-wise sum of the aggregates of its parts.
  lemma AppendHomomorphism(f: Filter, log: seq<LogRow>, delta: seq<LogRow>, k: RawKey)
    ensures Total(RowsOf(f, log + delta, k))
         == Plus(Total(RowsOf(f, log, k)), Total(RowsOf(f, delta, k)))
  {
    RowsOfConcat(f, log, delta, k);
    TotalConcat(RowsOf(f, log, k), RowsOf(f, delta, k));
  }

  // A log only grows, so the rows of a key in an earlier log are a prefix of those in a later one.
  lemma RowsOfPrefix(f: Filter, before: seq<LogRow>, log: seq<LogRow>, k: RawKey)
    requires before <= log
    ensures RowsOf(f, before, k) <= RowsOf(f, log, k)
  {
    RowsOfConcat(f, before, log[|before|..], k);
    assert log == before + log[|before|..];
  }

  /* ---------- which rows are counted, and for what ---------- */

  // A row counts for a key, as often as it is in the log, exactly if it has a timestamp, its
  // application is among the configured ones if there are any, its status is a success if only
  // those are wanted, and the key is the row's.
  lemma {:induction false} RowsOfExactly(f: Filter, log: seq<LogRow>, k: RawKey, r: LogRow)
    ensures multiset(RowsOf(f, log, k))[r] ==
            if && r.createdAt.Some?
               && (f.appTypes == [] || (r.appType.Some? && r.appType.value in f.appTypes))
               && (f.onlySuccess ==> r.status.Some? && 200 <= r.status.value < 300)
               && KeyOf(r) == k
            then multiset(log)[r] else 0
  {
    hide KeyOf;
    if log != [] {
      RowsOfExactly(f, log[..|log| - 1], k, r);
      assert log == log[..|log| - 1] + [log[|log| - 1]];
    }
  }

  lemma {:induction false} QualifyingExactly(f: Filter, log: seq<LogRow>, r: LogRow)
    ensures multiset(Qualifying(f, log))[r] ==
            if && r.createdAt.Some?
               && (f.appTypes == [] || (r.appType.Some? && r.appType.value in f.appTypes))
               && (f.onlySuccess ==> r.status.Some? && 200 <= r.status.value < 300)
            then multiset(log)[r] else 0
  {
    if log != [] {
      QualifyingExactly(f, log[..|log| - 1], r);
      assert log == log[..|log| - 1] + [log[|log| - 1]];
    }
  }

  // The key of a row, column by column: the UTC day of its timestamp, the application as it is,
  // the model or "unknown", the request model or the raw model.
  lemma KeyOfExactly(r: LogRow, k: RawKey)
    requires r.createdAt.Some?
    ensures KeyOf(r) == k <==>
            && 86400 * k.day <= r.createdAt.value < 86400 * (k.day + 1)
            && k.app == r.appType
            && k.model == (if r.model == None || r.model == Some("") then "unknown" else r.model.value)
            && k.requestModel == (if r.requestModel == None || r.requestModel == Some("") then r.model
                else r.requestModel)
  {
  }

  // What a finished bucket is called: a missing or empty application is "unknown".
  lemma IdOfExactly(k: RawKey)
    ensures IdOf(k).day == k.day && IdOf(k).model == k.model && IdOf(k).requestModel == k.requestModel
    ensures IdOf(k).app == if k.app == None || k.app == Some("") then "unknown" else k.app.value
  {
  }

  function CountSuccesses(rows: seq<LogRow>): nat {
    if rows == [] then 0
    else
      var r := rows[|rows| - 1];
      CountSuccesses(rows[..|rows| - 1]) + if r.status.Some? && 200 <= r.status.value < 300 then 1 else 0
  }

  function SumCosts(rows: seq<LogRow>): int {
    if rows == [] then 0
    else SumCosts(rows[..|rows| - 1]) + match rows[|rows| - 1].cost case None => 0 case Some(n) => n
  }

  // The counts and the cost of a bucket; Acceptance.TotalTokens has its four token columns.
  lemma {:induction false} TotalCounts(rows: seq<LogRow>)
    ensures Total(rows).requests == |rows|
    ensures Total(rows).successes == CountSuccesses(rows)
    ensures Total(rows).cost == SumCosts(rows)
  {
    if rows != [] {
      TotalCounts(rows[..|rows| - 1]);
    }
  }

  /* ---------- which buckets there are ---------- */

  predicate NoDuplicates<T(==)>(s: seq<T>) {
    forall i, j :: 0 <= i < j < |s| ==> s[i] != s[j]
  }

  lemma {:induction false} FirstSeenKeys(f: Filter, log: seq<LogRow>)
    ensures forall k :: k in FirstSeen(f, log) <==> RowsOf(f, log, k) != []
  {
    if log != [] {
      FirstSeenKeys(f, log[..|log| - 1]);
    }
  }

  lemma {:induction false} FirstSeenOnce(f: Filter, log: seq<LogRow>)
    ensures NoDuplicates(FirstSeen(f, log))
  {
    if log != [] {
      FirstSeenOnce(f, log[..|log| - 1]);
    }
  }

  // The reader returns exactly one bucket per key that has a qualifying row, and its
  // counters are the total of exactly those rows.
  lemma BucketsContents(f: Filter, log: seq<LogRow>)
    ensures forall b :: b in Buckets(f, log)
              <==> exists k :: RowsOf(f, log, k) != [] && b == BucketOf(f, log, k)
    ensures |Buckets(f, log)| == |FirstSeen(f, log)|
  {
    hide BucketOf, RowsOf, FirstSeen, Sorted;
    FirstSeenKeys(f, log);
    var keys := FirstSeen(f, log);
    var bs := BucketsOf(f, log, keys);
    forall b
      ensures b in Buckets(f, log) <==> exists k :: RowsOf(f, log, k) != [] && b == BucketOf(f, log, k)
    {
      assert b in Buckets(f, log) <==> b in multiset(bs);
      if b in bs {
        var i :| 0 <= i < |bs| && bs[i] == b;
        assert RowsOf(f, log, keys[i]) != [] && b == BucketOf(f, log, keys[i]);
      }
      if exists k :: RowsOf(f, log, k) != [] && b == BucketOf(f, log, k) {
        var k :| RowsOf(f, log, k) != [] && b == BucketOf(f, log, k);
        var i :| 0 <= i < |keys| && keys[i] == k;
        assert bs[i] == b;
      }
    }
  }

  /* ---------- conservation and independence of row order ---------- */

  function Qualifying(f: Filter, log: seq<LogRow>): seq<LogRow> {
    if log == [] then []
    else
      var before, r := log[..|log| - 1], log[|log| - 1];
      if Qualifies(f, r) then Qualifying(f, before) + [r] else Qualifying(f, before)
  }

  function SumOf(bs: seq<Bucket>): Usage {
    if bs == [] then NO_USAGE else Plus(SumOf(bs[..|bs| - 1]), bs[|bs| - 1].usage)
  }

  lemma SumOfSnoc(bs: seq<Bucket>, b: Bucket)
    ensures SumOf(bs + [b]) == Plus(SumOf(bs), b.usage)
  {
    assert (bs + [b])[..|bs|] == bs;
  }

  lemma {:induction false} SumOfInsert(bs: seq<Bucket>, b: Bucket)
    ensures SumOf(Insert(bs, b)) == Plus(SumOf(bs), b.usage)
  {
    if bs == [] || SortLe(bs[|bs| - 1], b) {
      SumOfSnoc(bs, b);
    } else {
      SumOfInsert(bs[..|bs| - 1], b);
      SumOfSnoc(Insert(bs[..|bs| - 1], b), bs[|bs| - 1]);
    }
  }

  lemma {:induction false} SumOfSorted(bs: seq<Bucket>)
    ensures SumOf(Sorted(bs)) == SumOf(bs)
  {
    if bs != [] {
      SumOfSorted(bs[..|bs| - 1]);
      SumOfInsert(Sorted(bs[..|bs| - 1]), bs[|bs| - 1]);
    }
  }

  // The same sum, taken over the keys.
  function KeySum(f: Filter, log: seq<LogRow>, keys: seq<RawKey>): Usage {
    if keys == [] then NO_USAGE
    else Plus(KeySum(f, log, keys[..|keys| - 1]), Total(RowsOf(f, log, keys[|keys| - 1])))
  }

  lemma {:induction false} SumOfBucketsOf(f: Filter, log: seq<LogRow>, keys: seq<RawKey>)
    ensures SumOf(BucketsOf(f, log, keys)) == KeySum(f, log, keys)
  {
    hide RowsOf, Total, Plus;
    if keys != [] {
      SumOfBucketsOf(f, log, keys[..|keys| - 1]);
      assert BucketsOf(f, log, keys)[..|keys| - 1] == BucketsOf(f, log, keys[..|keys| - 1]);
    }
  }

  lemma {:induction false} KeySumOneMore(f: Filter, log: seq<LogRow>, r: LogRow, keys: seq<RawKey>)
    requires NoDuplicates(keys)
    ensures KeySum(f, log + [r], keys)
         == if Qualifies(f, r) && KeyOf(r) in keys then Plus(KeySum(f, log, keys), RowUsage(r))
            else KeySum(f, log, keys)
  {
    if keys != [] {
      var front, k := keys[..|keys| - 1], keys[|keys| - 1];
      KeySumOneMore(f, log, r, front);
      RowsOfSnoc(f, log, r, k);
      assert keys == front + [k];
      if HasKey(f, r, k) {
        assert KeyOf(r) !in front;
        TotalSnoc(RowsOf(f, log, k), r);
        PlusAssociative(KeySum(f, log, front), Total(RowsOf(f, log, k)), RowUsage(r));
      } else if Qualifies(f, r) {
        assert KeyOf(r) in keys <==> KeyOf(r) in front;
        PlusSwap(KeySum(f, log, front), RowUsage(r), Total(RowsOf(f, log, k)));
      }
    }
  }

  // Nothing is lost and nothing is counted twice: the buckets add up to the qualifying rows.
  lemma Conservation(f: Filter, log: seq<LogRow>)
    ensures SumOf(Buckets(f, log)) == Total(Qualifying(f, log))
  {
    SumOfSorted(BucketsOf(f, log, FirstSeen(f, log)));
    SumOfBucketsOf(f, log, FirstSeen(f, log));
    KeySumOfAll(f, log);
  }

  lemma {:induction false} KeySumOfAll(f: Filter, log: seq<LogRow>)
    ensures KeySum(f, log, FirstSeen(f, log)) == Total(Qualifying(f, log))
  {
    if log != [] {
      var before, r := log[..|log| - 1], log[|log| - 1];
      assert log == before + [r];
      KeySumOfAll(f, before);
      FirstSeenOnce(f, before);
      FirstSeenOnce(f, log);
      FirstSeenSnoc(f, before, r);
      KeySumOneMore(f, before, r, FirstSeen(f, log));
      if Qualifies(f, r) {
        TotalSnoc(Qualifying(f, before), r);
        if KeyOf(r) !in FirstSeen(f, before) {
          FirstSeenKeys(f, before);
          KeySumNewKey(f, before, FirstSeen(f, before), KeyOf(r));
        }
      }
    }
  }

  lemma KeySumNewKey(f: Filter, log: seq<LogRow>, keys: seq<RawKey>, k: RawKey)
    requires RowsOf(f, log, k) == []
    ensures KeySum(f, log, keys + [k]) == KeySum(f, log, keys)
  {
    var more := keys + [k];
    assert more[..|more| - 1] == keys && more[|more| - 1] == k;
    PlusNothing(KeySum(f, log, keys));
  }

  // An element of a permutation can be taken out of both sides.
  lemma TakeOut<T>(a: seq<T>, b: seq<T>) returns (i: nat)
    requires a != [] && multiset(a) == multiset(b)
    ensures i < |b| && b[i] == a[|a| - 1]
    ensures multiset(a[..|a| - 1]) == multiset(b[..i] + b[i + 1..])
  {
    var front, x := a[..|a| - 1], a[|a| - 1];
    assert a == front + [x];
    assert x in multiset(b);
    i :| 0 <= i < |b| && b[i] == x;
    assert b == b[..i] + [x] + b[i + 1..];
    var rest := b[..i] + b[i + 1..];
    assert multiset(b) == multiset(rest) + multiset{x};
    assert multiset(front) + multiset{x} == multiset(rest) + multiset{x};
    assert multiset(front) == (multiset(front) + multiset{x}) - multiset{x};
    assert multiset(rest) == (multiset(rest) + multiset{x}) - multiset{x};
  }

  lemma {:induction false} TotalPermuted(f: Filter, a: seq<LogRow>, b: seq<LogRow>, k: RawKey)
    requires multiset(a) == multiset(b)
    ensures Total(RowsOf(f, a, k)) == Total(RowsOf(f, b, k))
    decreases |a|
  {
    if a == [] {
      assert |multiset(b)| == 0;
      assert b == [];
    } else {
      var i := TakeOut(a, b);
      var front, r := a[..|a| - 1], a[|a| - 1];
      var left, right := b[..i], b[i + 1..];
      assert a == front + [r] && b == left + ([r] + right);
      TotalPermuted(f, front, left + right, k);
      AppendHomomorphism(f, front, [r], k);
      MiddleRow(f, left, r, right, k);
    }
  }

  lemma MiddleRow(f: Filter, left: seq<LogRow>, r: LogRow, right: seq<LogRow>, k: RawKey)
    ensures Total(RowsOf(f, left + ([r] + right), k))
         == Plus(Total(RowsOf(f, left + right, k)), Total(RowsOf(f, [r], k)))
  {
    AppendHomomorphism(f, left, right, k);
    AppendHomomorphism(f, left, [r] + right, k);
    AppendHomomorphism(f, [r], right, k);
    var l, m, n := Total(RowsOf(f, left, k)), Total(RowsOf(f, [r], k)), Total(RowsOf(f, right, k));
    PlusAssociative(l, m, n);
    PlusSwap(l, m, n);
  }

  // The buckets do not depend on the order in which the rows are read.
  lemma RowOrderIrrelevant(f: Filter, a: seq<LogRow>, b: seq<LogRow>)
    requires multiset(a) == multiset(b)
    ensures multiset(Buckets(f, a)) == multiset(Buckets(f, b))
  {
    forall k ensures BucketOf(f, a, k) == BucketOf(f, b, k) && (RowsOf(f, a, k) != [] <==> RowsOf(f, b, k) != []) {
      TotalPermuted(f, a, b, k);
    }
    FirstSeenKeys(f, a);
    FirstSeenKeys(f, b);
    FirstSeenOnce(f, a);
    FirstSeenOnce(f, b);
    SameElements(FirstSeen(f, a), FirstSeen(f, b));
    BucketsPermuted(f, a, FirstSeen(f, a), FirstSeen(f, b));
    assert BucketsOf(f, a, FirstSeen(f, b)) == BucketsOf(f, b, FirstSeen(f, b));
  }

  lemma {:induction false} SameElements<T>(s: seq<T>, t: seq<T>)
    requires NoDuplicates(s) && NoDuplicates(t)
    requires forall x :: x in s <==> x in t
    ensures multiset(s) == multiset(t)
  {
    forall x ensures multiset(s)[x] == multiset(t)[x] {
      OnceEach(s, x);
      OnceEach(t, x);
    }
  }

  lemma {:induction false} OnceEach<T>(s: seq<T>, x: T)
    requires NoDuplicates(s)
    ensures multiset(s)[x] == if x in s then 1 else 0
  {
    if s != [] {
      OnceEach(s[..|s| - 1], x);
      assert s == s[..|s| - 1] + [s[|s| - 1]];
    }
  }

  lemma {:induction false} BucketsPermuted(f: Filter, log: seq<LogRow>, ks: seq<RawKey>, ls: seq<RawKey>)
    requires multiset(ks) == multiset(ls)
    ensures multiset(BucketsOf(f, log, ks)) == multiset(BucketsOf(f, log, ls))
    decreases |ks|
  {
    if ks == [] {
      assert |multiset(ls)| == 0;
      assert ls == [];
    } else {
      var i := TakeOut(ks, ls);
      var front, k := ks[..|ks| - 1], ks[|ks| - 1];
      var left, right := ls[..i], ls[i + 1..];
      BucketsPermuted(f, log, front, left + right);
      assert ks == front + [k] && ls == (left + [k]) + right;
      BucketsOfConcat(f, log, front, [k]);
      BucketsOfConcat(f, log, left, right);
      BucketsOfConcat(f, log, left + [k], right);
      BucketsOfConcat(f, log, left, [k]);
      MultisetOfMiddle(BucketsOf(f, log, left), BucketsOf(f, log, [k]), BucketsOf(f, log, right));
    }
  }

  lemma MultisetOfMiddle<T>(l: seq<T>, m: seq<T>, r: seq<T>)
    ensures multiset((l + m) + r) == multiset(l + r) + multiset(m)
  {
  }

  lemma BucketsOfConcat(f: Filter, log: seq<LogRow>, ks: seq<RawKey>, ls: seq<RawKey>)
    ensures BucketsOf(f, log, ks + ls) == BucketsOf(f, log, ks) + BucketsOf(f, log, ls)
  {
  }

  /* ---------- the sort ---------- */

  ghost predicate InOrder(s: seq<Bucket>) {
    forall i, j :: 0 <= i < j < |s| ==> SortLe(s[i], s[j])
  }

  // The order of the output: by day, then by application, then by model.
  lemma SortLeExactly(a: Bucket, b: Bucket)
    ensures SortLe(a, b) <==>
            || a.id.day < b.id.day
            || (a.id.day == b.id.day && a.id.app != b.id.app && TextLe(a.id.app, b.id.app))
            || (a.id.day == b.id.day && a.id.app == b.id.app && TextLe(a.id.model, b.id.model))
  {
  }

  lemma SortLeTotal(a: Bucket, b: Bucket)
    ensures SortLe(a, b) || SortLe(b, a)
  {
    TextLeTotal(a.id.app, b.id.app);
    TextLeTotal(a.id.model, b.id.model);
  }

  lemma SortLeTransitive(a: Bucket, b: Bucket, c: Bucket)
    requires SortLe(a, b) && SortLe(b, c)
    ensures SortLe(a, c)
  {
    if a.id.day == b.id.day == c.id.day {
      if a.id.app == b.id.app == c.id.app {
        TextLeTransitive(a.id.model, b.id.model, c.id.model);
      } else if a.id.app != b.id.app && b.id.app != c.id.app {
        TextLeTransitive(a.id.app, b.id.app, c.id.app);
        TextLeTotal(a.id.app, b.id.app);
      }
    }
  }

  lemma {:induction false} InsertInOrder(s: seq<Bucket>, b: Bucket)
    requires InOrder(s)
    ensures InOrder(Insert(s, b))
  {
    if s != [] {
      var front, last := s[..|s| - 1], s[|s| - 1];
      if SortLe(last, b) {
        forall i | 0 <= i < |s| ensures SortLe(s[i], b) {
          if i < |s| - 1 {
            SortLeTransitive(s[i], last, b);
          }
        }
      } else {
        InsertInOrder(front, b);
        SortLeTotal(last, b);
        var t := Insert(front, b);
        forall i | 0 <= i < |t| ensures SortLe(t[i], last) {
          assert t[i] in multiset(t);
          assert t[i] == b || t[i] in front;
        }
      }
    }
  }

  predicate Ties(a: Bucket, b: Bucket) {
    a.id.day == b.id.day && a.id.app == b.id.app && a.id.model == b.id.model
  }

  // The buckets of `s` with the sort key of `p`, in their order in `s`.
  function TiedWith(s: seq<Bucket>, p: Bucket): seq<Bucket> {
    if s == [] then []
    else if Ties(s[|s| - 1], p) then TiedWith(s[..|s| - 1], p) + [s[|s| - 1]]
    else TiedWith(s[..|s| - 1], p)
  }

  lemma TiedWithSnoc(s: seq<Bucket>, b: Bucket, p: Bucket)
    ensures TiedWith(s + [b], p) == if Ties(b, p) then TiedWith(s, p) + [b] else TiedWith(s, p)
  {
    assert (s + [b])[..|s|] == s;
  }

  lemma {:induction false} InsertStable(s: seq<Bucket>, b: Bucket, p: Bucket)
    ensures TiedWith(Insert(s, b), p) == if Ties(b, p) then TiedWith(s, p) + [b] else TiedWith(s, p)
  {
    if s == [] || SortLe(s[|s| - 1], b) {
      TiedWithSnoc(s, b, p);
    } else {
      var front, last := s[..|s| - 1], s[|s| - 1];
      InsertStable(front, b, p);
      TiedWithSnoc(Insert(front, b), last, p);
      TextLeTotal(last.id.model, last.id.model);
    }
  }

  // The report order: sorted by (date, app, model), and buckets that tie keep the order in
  // which the log first mentioned them. With the permutation this fixes the list completely.
  lemma {:induction false} SortedIsStableSort(bs: seq<Bucket>, p: Bucket)
    ensures InOrder(Sorted(bs))
    ensures TiedWith(Sorted(bs), p) == TiedWith(bs, p)
  {
    if bs != [] {
      var front, b := bs[..|bs| - 1], bs[|bs| - 1];
      SortedIsStableSort(front, p);
      InsertInOrder(Sorted(front), b);
      InsertStable(Sorted(front), b, p);
    }
  }

  /* ---------- signatures and state keys ---------- */

  // The text the fingerprint is computed from; the 64 bits kept of its SHA-1 are taken to
  // identify it.
  function Signature(u: Usage): string {
    Decimal(u.requests) + "|" + (Decimal(u.successes) + "|" + (Decimal(u.input) + "|" + (Decimal(u.output) + "|"
    + (Decimal(u.cacheRead) + "|" + (Decimal(u.cacheCreation) + "|" + Decimal(u.cost))))))
  }

  // The counters in the order in which they are joined.
  lemma SignatureText(u: Usage)
    ensures Signature(u) ==
            Decimal(u.requests) + "|" + Decimal(u.successes) + "|" + Decimal(u.input) + "|" + Decimal(u.output)
            + "|" + Decimal(u.cacheRead) + "|" + Decimal(u.cacheCreation) + "|" + Decimal(u.cost)
  {
    hide Decimal;
  }

  lemma SignatureInjective(u: Usage, v: Usage)
    requires Signature(u) == Signature(v)
    ensures u == v
  {
    var d := (x: Usage) => Decimal(x.cacheCreation) + "|" + Decimal(x.cost);
    var c := (x: Usage) => Decimal(x.cacheRead) + "|" + d(x);
    var b := (x: Usage) => Decimal(x.output) + "|" + c(x);
    var a := (x: Usage) => Decimal(x.input) + "|" + b(x);
    FirstField(Decimal(u.requests), Decimal(u.successes) + "|" + a(u),
               Decimal(v.requests), Decimal(v.successes) + "|" + a(v));
    FirstField(Decimal(u.successes), a(u), Decimal(v.successes), a(v));
    FirstField(Decimal(u.input), b(u), Decimal(v.input), b(v));
    FirstField(Decimal(u.output), c(u), Decimal(v.output), c(v));
    FirstField(Decimal(u.cacheRead), d(u), Decimal(v.cacheRead), d(v));
    FirstField(Decimal(u.cacheCreation), Decimal(u.cost), Decimal(v.cacheCreation), Decimal(v.cost));
    DecimalInjective(u.requests, v.requests);
    DecimalInjective(u.successes, v.successes);
    DecimalInjective(u.input, v.input);
    DecimalInjective(u.output, v.output);
    DecimalInjective(u.cacheRead, v.cacheRead);
    DecimalInjective(u.cacheCreation, v.cacheCreation);
    DecimalInjective(u.cost, v.cost);
  }

  // A bucket's signature changes exactly when the log gained a row for it; the request count
  // has then grown, so no signature ever comes back.
  lemma SignatureTracksGrowth(f: Filter, log: seq<LogRow>, delta: seq<LogRow>, k: RawKey)
    ensures Signature(Total(RowsOf(f, log + delta, k))) == Signature(Total(RowsOf(f, log, k)))
       <==> RowsOf(f, delta, k) == []
    ensures RowsOf(f, delta, k) != [] ==>
              Total(RowsOf(f, log + delta, k)).requests > Total(RowsOf(f, log, k)).requests
  {
    RowsOfConcat(f, log, delta, k);
    var before, after := Total(RowsOf(f, log, k)), Total(RowsOf(f, log + delta, k));
    if Signature(before) == Signature(after) {
      SignatureInjective(before, after);
    }
    if RowsOf(f, delta, k) == [] {
      assert RowsOf(f, log + delta, k) == RowsOf(f, log, k);
    }
  }

  // A missing value prints as None.
  function Printed(s: Option<string>): string {
    if s.Some? then s.value else "None"
  }

  function DedupKey(id: BucketId): string {
    Decimal(id.day) + "|" + (id.app + "|" + (id.model + "|" + Printed(id.requestModel)))
  }

  // The slot of a bucket in the state file.
  function StateKey(source: string, id: BucketId): string {
    source + "|" + DedupKey(id)
  }

  // The parts in the order in which they are joined; a missing request model prints as None.
  lemma StateKeyText(source: string, id: BucketId)
    ensures
      var requestModel := if id.requestModel == None then "None" else id.requestModel.value;
      StateKey(source, id)
        == source + "|" + Decimal(id.day) + "|" + id.app + "|" + id.model + "|" + requestModel
  {
    var r := Printed(id.requestModel);
    assert source + ("|" + (Decimal(id.day) + ("|" + (id.app + ("|" + (id.model + ("|" + r)))))))
        == source + "|" + Decimal(id.day) + "|" + id.app + "|" + id.model + "|" + r;
    assert StateKey(source, id)
        == source + ("|" + (Decimal(id.day) + ("|" + (id.app + ("|" + (id.model + ("|" + r)))))));
  }

  lemma StateKeyInjective(s1: string, id1: BucketId, s2: string, id2: BucketId)
    requires NoBar(s1) && NoBar(id1.app) && NoBar(id1.model)
    requires NoBar(s2) && NoBar(id2.app) && NoBar(id2.model)
    ensures StateKey(s1, id1) == StateKey(s2, id2)
       <==> s1 == s2 && id1.day == id2.day && id1.app == id2.app && id1.model == id2.model
            && Printed(id1.requestModel) == Printed(id2.requestModel)
  {
    if StateKey(s1, id1) == StateKey(s2, id2) {
      FirstField(s1, DedupKey(id1), s2, DedupKey(id2));
      DedupKeyInjective(id1, id2);
    }
  }

  lemma DedupKeyInjective(id1: BucketId, id2: BucketId)
    requires NoBar(id1.app) && NoBar(id1.model) && NoBar(id2.app) && NoBar(id2.model)
    requires DedupKey(id1) == DedupKey(id2)
    ensures id1.day == id2.day && id1.app == id2.app && id1.model == id2.model
    ensures Printed(id1.requestModel) == Printed(id2.requestModel)
  {
    var r1, r2 := Printed(id1.requestModel), Printed(id2.requestModel);
    FirstField(Decimal(id1.day), id1.app + "|" + (id1.model + "|" + r1),
               Decimal(id2.day), id2.app + "|" + (id2.model + "|" + r2));
    DecimalInjective(id1.day, id2.day);
    FirstField(id1.app, id1.model + "|" + r1, id2.app, id2.model + "|" + r2);
    FirstField(id1.model, r1, id2.model, r2);
  }
}
