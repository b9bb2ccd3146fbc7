// From the rows of a log to the sidecar's answer: which logs a reporter can send, told by the
// rows of each key, the client's settings and the sidecar's configuration.
module Acceptance {
  import opened Options
  import opened Text
  import opened UsageLog
  import opened Sidecar
  import opened Client
  import opened Protocol
  import opened Exactness
  import opened Reporter
  import opened Convergence
  import opened LateDelivery

  /* ---------- one key ---------- */

  datatype Column = Input | Output | CacheRead | CacheCreation

  function Tokens(r: LogRow, column: Column): int {
    match column
    case Input => OrZero(r.inputTokens)
    case Output => OrZero(r.outputTokens)
    case CacheRead => OrZero(r.cacheReadTokens)
    case CacheCreation => OrZero(r.cacheCreationTokens)
  }

  // One token column, added up.
  function SumTokens(rows: seq<LogRow>, column: Column): int {
    if rows == [] then 0 else SumTokens(rows[..|rows| - 1], column) + Tokens(rows[|rows| - 1], column)
  }

  // What its rows must be for a key's bucket to be storable: a model name, token columns
  // that do not add up to less than nothing, and a number of rows that fits an INTEGER.
  predicate SendableRows(k: RawKey, rows: seq<LogRow>) {
    && !Blank(k.model)
    && |rows| <= 0x7FFF_FFFF
    && SumTokens(rows, Input) >= 0 && SumTokens(rows, Output) >= 0
    && SumTokens(rows, CacheRead) >= 0 && SumTokens(rows, CacheCreation) >= 0
  }

  lemma {:induction false} TotalTokens(rows: seq<LogRow>)
    ensures Total(rows).input == SumTokens(rows, Input)
    ensures Total(rows).output == SumTokens(rows, Output)
    ensures Total(rows).cacheRead == SumTokens(rows, CacheRead)
    ensures Total(rows).cacheCreation == SumTokens(rows, CacheCreation)
  {
    if rows != [] {
      TotalTokens(rows[..|rows| - 1]);
    }
  }

  lemma BucketFitsExactly(f: Filter, log: seq<LogRow>, k: RawKey)
    ensures BucketFits(BucketOf(f, log, k)) <==> SendableRows(k, RowsOf(f, log, k))
  {
    hide Trim, RowsOf, Total, SumTokens;
    TotalTokens(RowsOf(f, log, k));
  }

  /* ---------- a whole log ---------- */

  // Every bucket of the log passes the sidecar's validation and fits its columns.
  ghost predicate Sendable(c: Client, log: seq<LogRow>) {
    forall k :: Live(c, log, k) ==> SendableRows(k, RowsOf(c.filter, log, k))
  }

  lemma SendableExactly(c: Client, log: seq<LogRow>)
    ensures Sendable(c, log) <==> forall b :: b in Buckets(c.filter, log) ==> BucketFits(b)
  {
    hide BucketFits, SendableRows, RowsOf, Buckets, BucketOf;
    BucketsContents(c.filter, log);
    forall k ensures BucketFits(BucketOf(c.filter, log, k)) <==> SendableRows(k, RowsOf(c.filter, log, k)) {
      BucketFitsExactly(c.filter, log, k);
    }
    if forall b :: b in Buckets(c.filter, log) ==> BucketFits(b) {
      forall k | Live(c, log, k) ensures SendableRows(k, RowsOf(c.filter, log, k)) {
        assert BucketOf(c.filter, log, k) in Buckets(c.filter, log);
      }
    }
  }

  // End to end: distinct buckets of one log, sent in one chunk, are accepted as a whole exactly
  // if the sidecar takes chunks of that size and the rows behind each of them can be sent.
  lemma ChunkAcceptedExactly(c: Client, log: seq<LogRow>, table: Table, chunk: seq<Bucket>)
    requires Separate(c, log) && chunk != [] && NoDuplicates(chunk)
    requires forall b :: b in chunk ==> b in Buckets(c.filter, log)
    ensures FullyAccepted(ServeChunk(c, table, chunk).0, |chunk|)
       <==> && Takes(c, |chunk|)
            && forall k :: Live(c, log, k) && BucketOf(c.filter, log, k) in chunk
                ==> SendableRows(k, RowsOf(c.filter, log, k))
  {
    hide ServeChunk, FullyAccepted, BucketFits, SendableRows, RowsOf, Buckets, BucketOf, Takes, Separate;
    BucketsContents(c.filter, log);
    forall k ensures BucketFits(BucketOf(c.filter, log, k)) <==> SendableRows(k, RowsOf(c.filter, log, k)) {
      BucketFitsExactly(c.filter, log, k);
    }
    if FullyAccepted(ServeChunk(c, table, chunk).0, |chunk|) {
      AcceptedMeansFits(c, table, chunk);
    } else if Takes(c, |chunk|) && forall b :: b in chunk ==> BucketFits(b) {
      ValidChunkAccepted(c, log, table, chunk);
    }
  }

  /* ---------- well-formed logs ---------- */

  predicate CountsUp(r: LogRow) {
    forall column :: Tokens(r, column) >= 0
  }

  // Rows as CC Switch writes them, and not more of them than an INTEGER can count.
  predicate WellFormedLog(log: seq<LogRow>) {
    |log| <= 0x7FFF_FFFF && forall r :: r in log ==> WellFormed(r) && CountsUp(r)
  }

  lemma {:induction false} TokensCountUp(rows: seq<LogRow>, column: Column)
    requires forall r :: r in rows ==> CountsUp(r)
    ensures SumTokens(rows, column) >= 0
  {
    if rows != [] {
      TokensCountUp(rows[..|rows| - 1], column);
      assert rows[|rows| - 1] in rows;
    }
  }

  lemma {:induction false} RowsAreFromLog(f: Filter, log: seq<LogRow>, k: RawKey)
    ensures forall r :: r in RowsOf(f, log, k) ==> r in log
  {
    hide HasKey;
    if log != [] {
      RowsAreFromLog(f, log[..|log| - 1], k);
    }
  }

  lemma WellFormedLogIsSendable(c: Client, log: seq<LogRow>)
    requires NoBar(c.source) && WellFormedLog(log)
    ensures Separate(c, log) && Sendable(c, log)
  {
    hide Separate, WellFormed, RowsOf, Blank;
    WellFormedLogsAreSeparate(c, log);
    forall k | Live(c, log, k) ensures SendableRows(k, RowsOf(c.filter, log, k)) {
      var rows := RowsOf(c.filter, log, k);
      RowsAreFromLog(c.filter, log, k);
      TokensCountUp(rows, Input);
      TokensCountUp(rows, Output);
      TokensCountUp(rows, CacheRead);
      TokensCountUp(rows, CacheCreation);
    }
  }

  // Every chunk the reporter can build from a well-formed log is accepted as a whole, so its
  // partial-failure branch is out of reach.
  lemma WellFormedChunkAccepted(c: Client, log: seq<LogRow>, table: Table, chunk: seq<Bucket>)
    requires NoBar(c.source) && WellFormedLog(log)
    requires chunk != [] && NoDuplicates(chunk) && forall b :: b in chunk ==> b in Buckets(c.filter, log)
    requires Takes(c, |chunk|)
    ensures FullyAccepted(ServeChunk(c, table, chunk).0, |chunk|)
  {
    hide ServeChunk, FullyAccepted, SendableRows, Buckets, BucketOf, Takes, Separate, WellFormedLog, NoBar, RowsOf;
    WellFormedLogIsSendable(c, log);
    ChunkAcceptedExactly(c, log, table, chunk);
  }

  /* ---------- convergence, told by the log ---------- */

  function Min(a: int, b: int): int {
    if a < b then a else b
  }

  // The settings suit the log: nothing to report, or a positive batch size, a sidecar that takes
  // the largest chunk there can be, and rows that can be sent.
  ghost predicate ReportableLog(c: Client, log: seq<LogRow>) {
    var n := |FirstSeen(c.filter, log)|;
    n > 0 ==> c.batchSize >= 1 && Takes(c, Min(c.batchSize, n)) && Sendable(c, log)
  }

  lemma ReportableLogMeansReportable(c: Client, log: seq<LogRow>, marks: Marks)
    requires ReportableLog(c, log)
    ensures Reportable(c, Pending(c, Buckets(c.filter, log), marks))
  {
    hide Buckets, FirstSeen, Pending, BucketFits, Sendable, SourceAllowed;
    BucketsContents(c.filter, log);
    SendableExactly(c, log);
  }

  lemma {:induction false} AllPending(c: Client, bs: seq<Bucket>)
    ensures Pending(c, bs, map[]) == bs
  {
    hide StateKey, Signature;
    if bs != [] {
      AllPending(c, bs[..|bs| - 1]);
    }
  }

  lemma ReportableFromScratch(c: Client, log: seq<LogRow>)
    ensures Reportable(c, Pending(c, Buckets(c.filter, log), map[])) <==> ReportableLog(c, log)
  {
    hide Buckets, FirstSeen, Pending, BucketFits, Sendable, SourceAllowed;
    AllPending(c, Buckets(c.filter, log));
    BucketsContents(c.filter, log);
    SendableExactly(c, log);
  }

  // Whatever happened before, if late deliveries did no harm, and whatever state file is left, one
  // error-free run over a reportable log brings the table in step with it, and the next run
  // sends nothing.
  lemma EveryHistoryConverges(c: Client, history: seq<Event>, early: Marks)
    requires Exec(c, START, history).Some? && HarmlessHistory(c, history)
    requires
      var s := Exec(c, START, history).value;
      s.run == NoRun && early in s.saved && Separate(c, s.log) && ReportableLog(c, s.log)
    ensures
      var s := Exec(c, START, history).value;
      var e := RunSpec(c, s.log, [], false, LoadMarks(s.disk, early), s.disk, s.table);
      e.ok && InSync(c, s.log, e.table)
      && RunSpec(c, s.log, [], false, e.marks, e.disk, e.table).sent == 0
  {
    hide Exec, HarmlessHistory, Separate, ReportableLog, Reportable, Buckets, Pending, InSync, SendAll, Inv;
    var s := Exec(c, START, history).value;
    HarmlessHistoryKeepsInv(c, history);
    ReportableLogMeansReportable(c, s.log, LoadMarks(s.disk, early));
    ConvergesExactly(c, s, early);
  }

  // And no weaker condition on the log, the client and the sidecar will do: a run without a
  // state file converges only if the log is reportable.
  lemma LostStateConvergesExactly(c: Client, s: Sys)
    requires Inv(c, s) && Separate(c, s.log) && s.run == NoRun && s.disk == Unreadable && map[] in s.saved
    ensures
      var e := RunSpec(c, s.log, [], false, map[], s.disk, s.table);
      (e.ok && InSync(c, s.log, e.table) && Pending(c, Buckets(c.filter, s.log), e.marks) == [])
      <==> ReportableLog(c, s.log)
  {
    hide Inv, Separate, ReportableLog, Reportable, Buckets, Pending, InSync, RunSpec;
    ConvergesExactly(c, s, map[]);
    ReportableFromScratch(c, s.log);
  }

  // The same for well-formed logs: nothing is left to check but the settings.
  lemma WellFormedHistoryConverges(c: Client, history: seq<Event>, early: Marks)
    requires Exec(c, START, history).Some? && HarmlessHistory(c, history)
    requires NoBar(c.source) && c.batchSize >= 1 && Takes(c, c.batchSize)
    requires
      var s := Exec(c, START, history).value;
      s.run == NoRun && early in s.saved && WellFormedLog(s.log)
    ensures
      var s := Exec(c, START, history).value;
      var e := RunSpec(c, s.log, [], false, LoadMarks(s.disk, early), s.disk, s.table);
      e.ok && InSync(c, s.log, e.table)
      && RunSpec(c, s.log, [], false, e.marks, e.disk, e.table).sent == 0
  {
    hide Exec, HarmlessHistory, Separate, Sendable, InSync, RunSpec, WellFormedLog, NoBar, SourceAllowed, FirstSeen;
    WellFormedLogIsSendable(c, Exec(c, START, history).value.log);
    EveryHistoryConverges(c, history, early);
  }

  /* ---------- recovery from harmful deliveries ---------- */

  // What survives any late delivery: every row is an earlier value of its bucket, or the current
  // one, and every request comes from a snapshot of the log.
  ghost predicate TableOk(c: Client, s: Sys) {
    && (forall k :: RowOk(c, s.log, s.table, k))
    && NoForeignRows(c, s)
    && (forall i :: 0 <= i < |s.strays| ==> StrayOk(c, s.log, s.strays[i]))
    && (s.run.Sending? ==>
          s.run.snap <= s.log && FromSnapshot(c, s.run.snap, s.run.pending) && s.run.done <= |s.run.pending|)
  }

  lemma ServedKeepsRows(c: Client, s: Sys, snap: seq<LogRow>, chunk: seq<Bucket>)
    requires TableOk(c, s) && Separate(c, s.log) && snap <= s.log && FromSnapshot(c, snap, chunk)
    ensures
      var t := s.(table := ServeChunk(c, s.table, chunk).1);
      (forall k :: RowOk(c, t.log, t.table, k)) && NoForeignRows(c, t)
  {
    hide ServeChunk, RowOf, RowKeyOf, FromSnapshot, RowInUse, Separate, StrayOk;
    var after := ServeChunk(c, s.table, chunk).1;
    forall k ensures RowOk(c, s.log, after, k) {
      assert RowOk(c, s.log, s.table, k);
      if Live(c, s.log, k) {
        EntryChange(c, s.log, s.table, snap, chunk, k);
      }
    }
    forall rk | rk in after ensures RowInUse(c, s.log, rk) {
      NewRowInUse(c, s, snap, chunk, rk);
    }
  }

  lemma AppendKeepsTable(c: Client, s: Sys, row: LogRow)
    requires TableOk(c, s) && Separate(c, s.log + [row])
    ensures TableOk(c, s.(log := s.log + [row]))
  {
    hide RowOf, RowOk, RowKeyOf, FromSnapshot, Separate;
    var more := s.log + [row];
    forall k ensures RowOk(c, more, s.table, k) {
      AppendKeepsRow(c, s, more, k);
    }
    forall rk | rk in s.table ensures RowInUse(c, more, rk) {
      assert RowInUse(c, s.log, rk);
      var k :| Live(c, s.log, k) && RowOf(c, k) == rk;
      LiveStays(c, s.log, more, k);
    }
  }

  lemma StepKeepsTable(c: Client, s: Sys, e: Event)
    requires TableOk(c, s) && Next(c, s, e).Some? && Separate(c, Next(c, s, e).value.log)
    ensures TableOk(c, Next(c, s, e).value)
  {
    hide ServeChunk, RowOk, RowInUse, FromSnapshot, Separate, MarkAll, SignatureMap, Buckets, StateKey;
    match e
    case Append(row) =>
      AppendKeepsTable(c, s, row);
    case Respond(_) =>
      ChunkFromSnapshot(c, s.run.snap, s.run.pending, s.run.done);
      ServedKeepsRows(c, s, s.run.snap, Chunk(c, s.run.pending, s.run.done));
    case Deliver(i) =>
      assert StrayOk(c, s.log, s.strays[i]);
      ServedKeepsRows(c, s, s.strays[i].snap, s.strays[i].chunk);
    case GiveUp =>
      ChunkFromSnapshot(c, s.run.snap, s.run.pending, s.run.done);
    case Read =>
      PendingFromSnapshot(c, s.log, s.run.mem);
    case _ =>
  }

  lemma PendingFromSnapshot(c: Client, log: seq<LogRow>, mem: Marks)
    ensures FromSnapshot(c, log, Pending(c, Buckets(c.filter, log), mem))
  {
    hide Buckets;
  }

  lemma {:induction false} ExecKeepsTable(c: Client, events: seq<Event>)
    requires Exec(c, START, events).Some? && Separate(c, Exec(c, START, events).value.log)
    ensures TableOk(c, Exec(c, START, events).value)
  {
    hide TableOk, Next, Separate;
    if events == [] {
      NoTable(c);
    } else {
      var front, last := events[..|events| - 1], events[|events| - 1];
      var before := Exec(c, START, front).value;
      StepGrows(c, before, last);
      SeparatePrefix(c, before.log, Exec(c, START, events).value.log);
      ExecKeepsTable(c, front);
      StepKeepsTable(c, before, last);
    }
  }

  lemma NoTable(c: Client)
    ensures TableOk(c, START)
  {
  }

  // The state of an installation whose state file is gone, with nothing under way.
  function Restarted(s: Sys): Sys {
    Sys(s.log, Unreadable, {map[]}, s.table, NoRun, [])
  }

  lemma RestartedIsOk(c: Client, s: Sys)
    requires TableOk(c, s)
    ensures Inv(c, Restarted(s))
  {
    hide RowOk, RowInUse, StrayOk;
  }

  // After any history whatever, with harmful deliveries and all: deleting the state file is the
  // recovery. A clean run without one brings the table in step with the log exactly if the log
  // is reportable.
  lemma RecoveryExactly(c: Client, history: seq<Event>)
    requires Exec(c, START, history).Some? && Separate(c, Exec(c, START, history).value.log)
    ensures
      var s := Exec(c, START, history).value;
      var e := RunSpec(c, s.log, [], false, map[], Unreadable, s.table);
      (e.ok && InSync(c, s.log, e.table) && Pending(c, Buckets(c.filter, s.log), e.marks) == [])
      <==> ReportableLog(c, s.log)
  {
    hide Exec, Inv, TableOk, Separate, ReportableLog, Buckets, Pending, InSync, RunSpec;
    var s := Exec(c, START, history).value;
    ExecKeepsTable(c, history);
    RestartedIsOk(c, s);
    LostStateConvergesExactly(c, Restarted(s));
  }
}
